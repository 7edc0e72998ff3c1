/** How the buffer relates to the ideal text, over every run. */
module Faithful {
  import opened CText
  import opened Tape
  import opened Output

  // ---------------------------------------------------------------- the buffer alone

  /** From "a" to "b" bytes were appended: nothing below the cursor changes, and marks stay set. */
  ghost predicate Grows(a: Tape, b: Tape) {
    && |a.bytes| == |b.bytes| && a.behind == b.behind && a.Within() && b.Within()
    && a.cur <= b.cur && a.cur <= |a.bytes| && a.bytes[..a.cur] == b.bytes[..a.cur]
    && (a.overflowed ==> b.overflowed) && (a.stray ==> b.stray)
  }

  lemma GrowsOn(a: Tape, b: Tape, c: Tape)
    requires Grows(a, b) && Grows(b, c)
    ensures Grows(a, c)
  {
    assert b.bytes[..b.cur][..a.cur] == b.bytes[..a.cur] && c.bytes[..b.cur][..a.cur] == c.bytes[..a.cur];
  }

  function Step(t: Tape, src: Pointer, i: nat): Tape
    requires t.cur + 1 < |t.bytes| && (src.Bytes? ==> i < |src.s|)
  {
    t.(bytes := t.bytes[t.cur := t.Read(src, i)], cur := t.cur + 1, stray := t.stray || t.Outside(src, i))
  }

  lemma {:induction false} CopyGrows(t: Tape, src: Pointer, i: nat, n: nat)
    requires i <= n && (src.Bytes? ==> n <= |src.s|) && t.Within()
    ensures var r := t.Copy(src, i, n);
            && Grows(t, r) && r.name == t.name && r.len == t.len
            && (!r.overflowed ==> r.cur == t.cur + (n - i) && (i < n ==> r.cur < |r.bytes|))
    decreases n - i
  {
    if i < n && t.cur + 1 < |t.bytes| {
      CopyGrows(Step(t, src, i), src, i + 1, n);
      GrowsOn(t, Step(t, src, i), t.Copy(src, i, n));
    }
  }

  /** A terminator stands at the cursor. */
  predicate Ended(t: Tape) { t.cur < |t.bytes| && t.bytes[t.cur] == '\0' }

  lemma AppendGrows(t: Tape, src: Pointer, n: nat)
    requires 0 < n && (src.Bytes? ==> n <= |src.s|) && t.Within()
    ensures var r := t.Append(src, n);
            && Grows(t, r) && r.name == t.name && r.len == t.len
            && (!r.overflowed ==> r.cur == t.cur + n && Ended(r))
  {
    CopyGrows(t, src, 0, n);
  }

  /** What a whole append does, fitting or not: the cursor moves on by the length unless the buffer overflows. */
  lemma PrintGrows(t: Tape, src: Pointer, n: nat)
    requires 0 < n && (src.Bytes? ==> n <= |src.s|) && t.Within()
    ensures var r := t.Print(src, n);
            && Grows(t, r) && (!r.overflowed ==> r.cur >= t.cur + n && Ended(r))
            && r.len == if IsAlpha(t.Read(src, 0)) || t.Read(src, 0) == '_' then n else t.len
  {
    hide Tape.Copy, Tape.Read;
    var first := t.Read(src, 0);
    var a := t.(stray := t.stray || t.Outside(src, 0));
    var b := a.KeepApart(first);
    AppendGrows(a, Bytes(" "), 1);
    AppendGrows(b.Remember(first, n), src, n);
    GrowsOn(a, b, b.Remember(first, n).Append(src, n));
  }

  /** A text that is no identifier leaves the remembered name alone. */
  lemma NameKept(t: Tape, str: string)
    requires str != "" && !StartsName(str) && t.Within()
    ensures t.Print(Bytes(str), |str|).name == t.name && t.Print(Bytes(str), |str|).len == t.len
  {
    hide Tape.Copy;
    var a := t.(stray := t.stray || t.Outside(Bytes(str), 0));
    AppendGrows(a, Bytes(" "), 1);
    AppendGrows(a.KeepApart(str[0]), Bytes(str), |str|);
  }

  /** The text at "src" is "str", and a text in the buffer lies below the cursor. */
  predicate Denotes(t: Tape, src: Pointer, str: string) {
    match src
    case Bytes(s) => s == str
    case Buffer(at) => at + |str| <= t.cur <= |t.bytes| && t.bytes[at..at + |str|] == str
  }

  lemma DenotesOn(a: Tape, b: Tape, src: Pointer, str: string)
    requires Denotes(a, src, str) && Grows(a, b)
    ensures Denotes(b, src, str)
  {
    if src.Buffer? { SliceBelow(a.bytes, b.bytes, a.cur, src.at, src.at + |str|); }
  }

  lemma SliceBelow(a: string, b: string, cur: nat, lo: nat, hi: nat)
    requires lo <= hi <= cur <= |a| && cur <= |b| && a[..cur] == b[..cur]
    ensures a[lo..hi] == b[lo..hi]
  {
    assert a[lo..hi] == a[..cur][lo..hi] && b[lo..hi] == b[..cur][lo..hi];
  }

  lemma DenotedChar(t: Tape, src: Pointer, str: string, i: nat)
    requires Denotes(t, src, str) && i < |str|
    ensures t.Read(src, i) == str[i] && !t.Outside(src, i)
  {
    if src.Buffer? { assert t.bytes[src.at..src.at + |str|][i] == t.bytes[src.at + i]; }
  }

  lemma OneMore(bytes: string, cur: nat, str: string, i: nat)
    requires cur < |bytes| && i < |str|
    ensures bytes[cur := str[i]][..cur + 1] + str[i + 1..] == bytes[..cur] + str[i..]
  {
    assert bytes[cur := str[i]][..cur + 1] == bytes[..cur] + [str[i]];
    assert str[i..] == [str[i]] + str[i + 1..];
  }

  /** One character of a text that fits. */
  lemma StepWrites(t: Tape, src: Pointer, str: string, i: nat)
    requires i < |str| && t.cur + 1 < |t.bytes| && Denotes(t, src, str)
    ensures Step(t, src, i) == t.(bytes := t.bytes[t.cur := str[i]], cur := t.cur + 1)
  {
    hide Denotes, Tape.Read, Tape.Outside;
    DenotedChar(t, src, str, i);
  }

  lemma CopyStep(t: Tape, src: Pointer, i: nat, n: nat)
    requires i < n && (src.Bytes? ==> n <= |src.s|) && t.cur + 1 < |t.bytes|
    ensures t.Copy(src, i, n) == Step(t, src, i).Copy(src, i + 1, n)
  {
  }

  lemma StepDenotes(t: Tape, src: Pointer, str: string, ch: char)
    requires t.cur + 1 < |t.bytes| && Denotes(t, src, str)
    ensures Denotes(t.(bytes := t.bytes[t.cur := ch], cur := t.cur + 1), src, str)
  {
    if src.Buffer? { SliceKept(t.bytes, t.cur, ch, src.at, src.at + |str|); }
  }

  lemma SliceKept(bytes: string, cur: nat, ch: char, lo: nat, hi: nat)
    requires lo <= hi <= cur < |bytes|
    ensures bytes[cur := ch][lo..hi] == bytes[lo..hi]
  {
  }

  /** A text that fits is copied whole, and no read leaves the part below the cursor. */
  lemma {:induction false} CopyExact(t: Tape, src: Pointer, str: string, i: nat)
    requires i <= |str| && t.cur + (|str| - i) < |t.bytes| && !t.overflowed && Denotes(t, src, str)
    ensures var r := t.Copy(src, i, |str|);
            && r.cur == t.cur + (|str| - i) < |r.bytes| == |t.bytes| && !r.overflowed && r.stray == t.stray
            && r.bytes[..r.cur] == t.bytes[..t.cur] + str[i..]
    decreases |str| - i
  {
    if i < |str| {
      hide Step, Denotes, Tape.Copy;
      StepWrites(t, src, str, i);
      StepDenotes(t, src, str, str[i]);
      OneMore(t.bytes, t.cur, str, i);
      CopyStep(t, src, i, |str|);
      CopyExact(Step(t, src, i), src, str, i + 1);
    }
  }

  lemma AppendExact(t: Tape, src: Pointer, str: string)
    requires 0 < |str| && t.cur + |str| < |t.bytes| && !t.overflowed && Denotes(t, src, str)
    ensures var r := t.Append(src, |str|);
            && r.cur == t.cur + |str| < |r.bytes| == |t.bytes| && !r.overflowed && r.stray == t.stray
            && r.bytes[..r.cur] == t.bytes[..t.cur] + str && r.bytes[r.cur] == '\0'
  {
    CopyExact(t, src, str, 0);
    assert str[0..] == str;
  }

  function Gap(text: string, str: string): string
    requires str != ""
  {
    if str[0] == '<' && text != "" && text[|text| - 1] == '<' then " " else ""
  }

  lemma KeepApartExact(t: Tape, str: string)
    requires 0 < |str| && t.cur <= |t.bytes| && t.Within() && !t.overflowed
    requires t.cur + |Gap(t.bytes[..t.cur], str)| < |t.bytes|
    ensures var b, gap := t.KeepApart(str[0]), Gap(t.bytes[..t.cur], str);
            && b.cur == t.cur + |gap| < |b.bytes| == |t.bytes| && !b.overflowed && b.stray == t.stray
            && b.bytes[..b.cur] == t.bytes[..t.cur] + gap && b.name == t.name && b.len == t.len && Grows(t, b)
  {
    hide Tape.Copy, Tape.Append;
    assert t.cur > 0 ==> t.bytes[..t.cur][t.cur - 1] == t.bytes[t.cur - 1];
    if Gap(t.bytes[..t.cur], str) == " " {
      AppendExact(t, Bytes(" "), " ");
      AppendGrows(t, Bytes(" "), 1);
    }
  }

  lemma PrintExact(t: Tape, src: Pointer, str: string)
    requires 0 < |str| && t.cur <= |t.bytes| && t.Within() && !t.overflowed && Denotes(t, src, str)
    requires t.cur + |Gap(t.bytes[..t.cur], str)| + |str| < |t.bytes|
    ensures var r, gap := t.Print(src, |str|), Gap(t.bytes[..t.cur], str);
            && r.cur == t.cur + |gap| + |str| < |r.bytes| == |t.bytes| && !r.overflowed && r.stray == t.stray
            && r.bytes[..r.cur] == t.bytes[..t.cur] + gap + str && r.bytes[r.cur] == '\0'
            && (if StartsName(str) then r.name == t.cur + |gap| && r.len == |str| else r.name == t.name && r.len == t.len)
  {
    hide Tape.Copy, Tape.Append, Tape.KeepApart, Gap, Denotes, Grows;
    DenotedChar(t, src, str, 0);
    var b := t.KeepApart(str[0]);
    KeepApartExact(t, str);
    assert t.(stray := t.stray || t.Outside(src, 0)) == t;
    DenotesOn(t, b, src, str);
    var c := b.Remember(str[0], |str|);
    SameText(b, c, src, str);
    AppendExact(c, src, str);
    AppendGrows(c, src, |str|);
  }

  lemma SameText(b: Tape, c: Tape, src: Pointer, str: string)
    requires Denotes(b, src, str) && c.bytes == b.bytes && c.cur == b.cur
    ensures Denotes(c, src, str)
  {
  }

  // ---------------------------------------------------------------- the buffer beside the ideal text

  /** Some append so far, abandoned attempts included, did not fit. */
  predicate Clipped(o: Out) { o.high > 0 && o.high >= |o.tape.bytes| }

  /** The buffer holds the ideal text, the remembered name lies below the cursor, and nothing behind the buffer was
      read. */
  predicate Shows(o: Out) {
    && !o.tape.overflowed && !o.tape.stray
    && o.tape.cur == |o.text| <= |o.tape.bytes|
    && o.tape.bytes[..o.tape.cur] == o.text
    && (o.tape.len > 0 ==>
          o.tape.name + o.tape.len <= o.tape.cur && o.text[o.tape.name..o.tape.name + o.tape.len] == o.prev)
    && (o.sealed ==> Ended(o.tape))
  }

  /** The remembered name is an identifier of the remembered length, in the buffer as in the ideal text. */
  predicate Names(o: Out) {
    if o.tape.len > 0 then o.tape.len == |o.prev| && StartsName(o.prev) else o.prev == ""
  }

  /** What holds of every state: without overflow all that was printed is there, and terminated if the ideal text
      is, whatever was clipped before. */
  predicate Sound(o: Out) {
    && o.tape.Within() && Names(o)
    && (!o.tape.overflowed ==> o.plain <= o.tape.cur && (o.sealed ==> Ended(o.tape)))
    && (!Clipped(o) ==> Shows(o))
  }

  /** From "a" to "b": without a write no byte changes, and unless something was clipped the bytes below the
      entry cursor are as they were. */
  ghost predicate Keeps(a: Out, b: Out) {
    && |a.tape.bytes| == |b.tape.bytes| && a.tape.behind == b.tape.behind
    && a.high <= b.high && a.writes <= b.writes && (a.tape.stray ==> b.tape.stray)
    && (a.writes == b.writes ==> a.tape.bytes == b.tape.bytes)
    && (!Clipped(b) ==>
          && a.tape.cur <= b.tape.cur && a.tape.cur <= |a.tape.bytes|
          && a.tape.bytes[..a.tape.cur] == b.tape.bytes[..a.tape.cur])
  }

  lemma KeepsOn(a: Out, b: Out, c: Out)
    requires Keeps(a, b) && Keeps(b, c)
    ensures Keeps(a, c)
  {
    if !Clipped(c) {
      assert b.tape.bytes[..b.tape.cur][..a.tape.cur] == b.tape.bytes[..a.tape.cur];
      assert c.tape.bytes[..b.tape.cur][..a.tape.cur] == c.tape.bytes[..a.tape.cur];
    }
  }

  lemma SameLength(a: Out, b: Out)
    requires Keeps(a, b)
    ensures |a.tape.bytes| == |b.tape.bytes|
  {
  }

  /** A slice of a text is a slice of every longer one. */
  lemma SliceStays(s: string, more: string, lo: nat, hi: nat)
    requires lo <= hi <= |s|
    ensures (s + more)[lo..hi] == s[lo..hi]
  {
  }

  /** "str" can be read at "src": it is there, or it is the remembered name. */
  predicate Source(o: Out, str: string, src: Pointer) {
    && str != ""
    && match src
       case Bytes(s) => s == str
       case Buffer(at) => at == o.tape.name && o.tape.len == |str| && str == o.prev
  }

  function AfterPrint(o: Out, str: string, src: Pointer): Out
    requires Source(o, str, src)
  {
    o.Print(str).(tape := o.tape.Print(src, |str|))
  }

  lemma Remembered(o: Out, str: string, src: Pointer)
    requires Shows(o) && Source(o, str, src)
    ensures Denotes(o.tape, src, str)
  {
    if src.Buffer? { SliceStays(o.text, o.tape.bytes[o.tape.cur..], src.at, src.at + |str|); }
  }

  lemma PrintNames(o: Out, str: string, src: Pointer)
    requires Names(o) && o.tape.Within() && o.append && Source(o, str, src)
    ensures Names(AfterPrint(o, str, src))
  {
    hide Tape.Print;
    PrintGrows(o.tape, src, |str|);
  }

  lemma PrintFits(o: Out, str: string, src: Pointer)
    requires Shows(o) && o.tape.Within() && o.append && Source(o, str, src) && !Clipped(AfterPrint(o, str, src))
    ensures var p, gap := AfterPrint(o, str, src), Gap(o.text, str);
            && p.text == o.text + gap + str && |p.tape.bytes| == |o.tape.bytes|
            && o.tape.cur + |gap| + |str| < |o.tape.bytes|
  {
    hide Tape.Print;
    PrintGrows(o.tape, src, |str|);
  }

  lemma PrintShows(o: Out, str: string, src: Pointer)
    requires Shows(o) && o.tape.Within() && o.append && Source(o, str, src) && !Clipped(AfterPrint(o, str, src))
    ensures Shows(AfterPrint(o, str, src))
  {
    hide Tape.Print, Denotes, Clipped, Gap;
    Remembered(o, str, src);
    PrintFits(o, str, src);
    PrintExact(o.tape, src, str);
    NameShown(o.text, Gap(o.text, str), str, o.tape.name, o.tape.len);
  }

  /** Where a name lies in a text that was made longer. */
  lemma NameShown(text: string, gap: string, str: string, name: nat, len: int)
    ensures (text + gap + str)[|text + gap|..|text + gap| + |str|] == str
    ensures 0 < len && name + len <= |text| ==> (text + gap + str)[name..name + len] == text[name..name + len]
  {
    assert text + gap + str == text + (gap + str);
  }

  /** An append of "str", read at "src", keeps buffer and ideal text together. */
  lemma PrintSound(o: Out, str: string, src: Pointer)
    requires Sound(o) && o.append && Source(o, str, src)
    ensures Sound(AfterPrint(o, str, src)) && Keeps(o, AfterPrint(o, str, src))
  {
    hide Tape.Print, Names, Shows;
    PrintGrows(o.tape, src, |str|);
    PrintNames(o, str, src);
    if !Clipped(AfterPrint(o, str, src)) { PrintShows(o, str, src); }
  }

  lemma PrintPrevSound(o: Out)
    requires Sound(o)
    ensures Sound(o.PrintPrev()) && Keeps(o, o.PrintPrev())
  {
    if o.append && o.tape.len > 0 {
      assert o.prev != "";
      PrintSound(o, o.prev, Buffer(o.tape.name));
    }
  }

  lemma SeparateSound(o: Out)
    requires Sound(o)
    ensures Sound(o.Separate()) && Keeps(o, o.Separate())
  {
    if o.nest >= 1 && o.append { PrintSound(o, "::", Bytes("::")); }
  }

  /** What a separator adds, and only that. */
  lemma Separated(o: Out)
    requires Sound(o) && o.nest >= 1 && o.append
    ensures var m := o.Separate();
            && m.text == o.text + "::" && m.prev == o.prev && m.plain == o.plain + 2 && m.writes == o.writes + 1
            && m.tape.name == o.tape.name && m.tape.len == o.tape.len && m.nest == o.nest && m.append
            && (!m.tape.overflowed ==> !o.tape.overflowed && m.tape.cur >= o.tape.cur + 2)
            && |m.tape.bytes| == |o.tape.bytes|
  {
    PrintGrows(o.tape, Bytes("::"), 2);
    NameKept(o.tape, "::");
  }

  /** A separator behind which nothing came is taken back exactly. */
  lemma RetractedSound(o: Out, n: Out)
    requires Sound(o) && Sound(n) && Keeps(o.Separate(), n) && n == n.Rollback(o.Separate())
    ensures Sound(n.Cancel()) && Keeps(o, n.Cancel())
  {
    hide Tape.Print, Out.Separate;
    var m, c := o.Separate(), n.Cancel();
    SeparateSound(o);
    KeepsOn(o, m, n);
    if m.nest >= 1 && m.append {
      SeparateNeeds(o);
      Separated(o);
      assert n.text == o.text + "::" && c.text == o.text;
      if !Clipped(c) {
        assert c.tape.cur == |o.text|;
        assert c.tape.bytes[..c.tape.cur] == n.tape.bytes[..n.tape.cur][..c.tape.cur] == o.text;
      }
    } else {
      SeparateNeeds(o);
    }
  }

  lemma SeparateNeeds(o: Out)
    ensures o.Separate().nest == o.nest && o.Separate().append == o.append
    ensures !(o.nest >= 1 && o.append) ==> o.Separate() == o
  {
  }

  lemma RollbackSound(o: Out, n: Out)
    requires Sound(o) && Sound(n) && Keeps(o, n)
    ensures Sound(n.Rollback(o)) && Keeps(o, n.Rollback(o))
  {
  }

  lemma PrintAny(o: Out, str: string)
    requires Sound(o)
    ensures Sound(o.Print(str)) && Keeps(o, o.Print(str))
  {
    if o.append && str != "" { PrintSound(o, str, Bytes(str)); }
  }

  /** Modes play no part in it. */
  lemma ModesSound(o: Out, nest: int, append: bool, r: Out)
    requires Keeps(o.(nest := nest, append := append), r)
    ensures Sound(r) ==> Sound(r.(nest := o.nest)) && Sound(r.(append := o.append))
    ensures Keeps(o, r.(nest := o.nest)) && Keeps(o, r.(append := o.append))
  {
  }

  lemma SameSound(o: Out, nest: int, append: bool)
    requires Sound(o)
    ensures Sound(o.(nest := nest, append := append)) && Keeps(o, o) && Keeps(o, o.(nest := nest, append := append))
    ensures Keeps(o.(nest := nest, append := append), o.(nest := nest, append := append))
  {
  }

  lemma MutedSound(o: Out, r: Out)
    requires Sound(o) && r == o.(append := false).(nest := r.nest)
    ensures Sound(r.(append := o.append)) && Keeps(o, r.(append := o.append))
  {
  }

  /** Over every trace a parse can leave, the buffer stays with the ideal text. */
  lemma {:induction false} RunSound(tr: Trace, o: Out)
    requires Clean(tr) && Sound(o)
    ensures Sound(Exec(tr, o)) && Keeps(o, Exec(tr, o))
  {
    hide Sound, Keeps, Out.Print, Out.PrintPrev, Out.Separate, Out.Cancel, Out.Rollback;
    SameSound(o, o.nest, o.append);
    match tr
    case Nothing =>
    case Emit(str) => PrintAny(o, str);
    case EmitPrev => PrintPrevSound(o);
    case Separator => SeparateSound(o);
    case Retracted(b) =>
      SeparateSound(o);
      RunSound(b, o.Separate());
      FrozenKeeps(b, o.Separate());
      RetractedSound(o, Exec(b, o.Separate()));
    case Deeper => SameSound(o, o.Descend().nest, o.append);
    case Both(a, b) =>
      RunSound(a, o);
      RunSound(b, Exec(a, o));
      KeepsOn(o, Exec(a, o), Exec(b, Exec(a, o)));
    case Attempt(b) =>
      RunSound(b, o);
      RollbackSound(o, Exec(b, o));
    case Muted(b) =>
      MutedKeeps(b, o.(append := false));
      MutedSound(o, Exec(b, o.(append := false)));
    case Nested(b) =>
      SameSound(o, 0, o.append);
      RunSound(b, o.(nest := 0));
      ModesSound(o, 0, o.append, Exec(b, o.(nest := 0)));
  }

  // ---------------------------------------------------------------- whole runs

  lemma StartSound(bytes: string, behind: nat -> char)
    ensures Sound(Start(bytes, behind))
  {
  }

  /**
   * For every trace and every buffer: while the buffer has not overflowed, everything printed, spaces between
   * '<' aside, lies below its cursor, terminated there if the ideal text is; so a text that does not fit is never
   * shown as one that does.
   */
  lemma OverflowIsSeen(tr: Trace, bytes: string, behind: nat -> char)
    requires Clean(tr)
    ensures var o := Exec(tr, Start(bytes, behind));
            && (!o.tape.overflowed ==> o.plain <= o.tape.cur && (o.plain == 0 || o.plain < |bytes|))
            && (!o.tape.overflowed && o.sealed ==> Ended(o.tape))
  {
    StartSound(bytes, behind);
    RunSound(tr, Start(bytes, behind));
  }

  /** When nothing was clipped, abandoned attempts included, the buffer shows the ideal text. */
  lemma UnclippedShows(tr: Trace, bytes: string, behind: nat -> char)
    requires Clean(tr) && !Clipped(Exec(tr, Start(bytes, behind)))
    ensures Shows(Exec(tr, Start(bytes, behind)))
  {
    StartSound(bytes, behind);
    RunSound(tr, Start(bytes, behind));
  }

  /** The ideal text does not depend on the buffer. */
  predicate SameIdeal(a: Out, b: Out) {
    && a.text == b.text && a.prev == b.prev && a.nest == b.nest && a.append == b.append && a.high == b.high
    && a.writes == b.writes && a.sealed == b.sealed && a.plain == b.plain
  }

  lemma ActionIsIdeal(act: Trace, a: Out, b: Out)
    requires SameIdeal(a, b) && (act.Emit? || act.EmitPrev? || act.Separator? || act.Deeper?)
    ensures SameIdeal(Exec(act, a), Exec(act, b))
  {
    hide Tape.Print;
  }

  lemma {:induction false} IdealIsIdeal(tr: Trace, a: Out, b: Out)
    requires SameIdeal(a, b)
    ensures SameIdeal(Exec(tr, a), Exec(tr, b))
  {
    hide Tape.Print, Tape.Cancel, Out.Print, Out.PrintPrev, Out.Separate, Out.Descend;
    match tr
    case Nothing =>
    case Retracted(x) =>
      ActionIsIdeal(Separator, a, b);
      IdealIsIdeal(x, a.Separate(), b.Separate());
    case Both(x, y) =>
      IdealIsIdeal(x, a, b);
      IdealIsIdeal(y, Exec(x, a), Exec(x, b));
    case Attempt(x) => IdealIsIdeal(x, a, b);
    case Muted(x) => IdealIsIdeal(x, a.(append := false), b.(append := false));
    case Nested(x) => IdealIsIdeal(x, a.(nest := 0), b.(nest := 0));
    case _ => ActionIsIdeal(tr, a, b);
  }

  /** A failed parse leaves every field it could print to as it was; only bytes from the cursor on may differ. */
  lemma FailureFrame(tr: Trace, o: Out)
    requires Frozen(tr)
    ensures var r := Exec(tr, o);
            && r.text == o.text && r.prev == o.prev && r.nest == o.nest && r.append == o.append && r.plain == o.plain
            && r.tape.cur == o.tape.cur && r.tape.name == o.tape.name && r.tape.len == o.tape.len
            && r.tape.overflowed == o.tape.overflowed
  {
    FrozenKeeps(tr, o);
  }

  predicate Doubled(o: Out) { o.plain <= |o.text| <= 2 * o.plain }

  lemma PrintDoubled(o: Out, str: string)
    requires Doubled(o)
    ensures Doubled(o.Print(str)) && Doubled(o.PrintPrev()) && Doubled(o.Separate())
  {
    hide Tape.Print;
  }

  lemma RetractedDoubled(o: Out, n: Out)
    requires Doubled(o) && n == n.Rollback(o.Separate())
    ensures Doubled(n.Cancel())
  {
    hide Tape.Print;
  }

  /** Spaces between '<' at most double a text. */
  lemma {:induction false} PlainIsMost(tr: Trace, o: Out)
    requires Clean(tr) && Doubled(o)
    ensures Doubled(Exec(tr, o))
  {
    hide Out.Print, Out.PrintPrev, Out.Separate, Out.Cancel;
    PrintDoubled(o, if tr.Emit? then tr.str else "");
    match tr
    case Retracted(b) =>
      FrozenKeeps(b, o.Separate());
      RetractedDoubled(o, Exec(b, o.Separate()));
    case Both(a, b) =>
      PlainIsMost(a, o);
      PlainIsMost(b, Exec(a, o));
    case Muted(b) => MutedKeeps(b, o.(append := false));
    case Nested(b) => PlainIsMost(b, o.(nest := 0));
    case _ =>
  }
}

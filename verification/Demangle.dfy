/** The demangler itself: one mutable state, restored from copies, printing into a fixed buffer. */
module Demangle {
  import opened CText
  import opened Tape
  import opened Output
  import opened Recogniser
  import opened Snapshots
  import opened Faithful
  import opened DemangleRoom
  import MangledSymbols
  import M = Mangling

  class State {
    const text: CString
    const out: array<char>
    /** Whatever memory holds behind the buffer. */
    const behind: nat -> char
    var cur: nat
    var outCur: nat
    var prevName: nat
    var prevLen: int
    var nest: int
    var append: bool
    var overflowed: bool
    var localLevel: nat
    var exprLevel: nat
    var argLevel: nat
    ghost var stray: bool
    ghost var now: Snap

    function Current(): Fields
      reads this
    {
      Fields(cur, outCur, prevName, prevLen, nest, append, overflowed, localLevel, exprLevel, argLevel)
    }

    /** The buffer and the fields that point into it. */
    ghost function Page(): Tape
      reads this, out
    {
      Tape(out[..], outCur, prevName, prevLen, overflowed, stray, behind)
    }

    /** "now" is the state as a value: every field and every byte of the buffer. */
    ghost predicate Valid()
      reads this, out
    {
      now.Copy() == Current() && now.o.tape == Page() && now.Within(text, out.Length)
    }

    constructor (mangled: CString, buffer: array<char>, behind: nat -> char)
      ensures text == mangled && out == buffer && Valid()
      ensures now == Snap(ENTRY, Start(buffer[..], behind))
    {
      text, out, this.behind := mangled, buffer, behind;
      cur, outCur, prevName, prevLen, nest := 0, 0, 0, -1, -1;
      append, overflowed, stray := true, false, false;
      localLevel, exprLevel, argLevel := 0, 0, 0;
      now := Snap(ENTRY, Start(buffer[..], behind));
    }

    // ---------------------------------------------------------------- copies of the state

    /** "copy" was taken of this object in the state "a". */
    ghost predicate Saved(copy: Fields, a: Snap) {
      copy == a.Copy() && a.Within(text, out.Length) && a.o.tape.behind == behind
    }

    /** What a valid state says about its own value. */
    lemma Reflect()
      requires Valid()
      ensures Saved(Current(), now) && Good(text, now.c)
      ensures cur == now.c.pos && append == now.o.append && nest == now.o.nest
      ensures prevName == now.o.tape.name && prevLen == now.o.tape.len
      ensures localLevel == now.c.local && exprLevel == now.c.expr && argLevel == now.c.arg
    {
    }

    method Assign(copy: Fields)
      modifies `cur, `outCur, `prevName, `prevLen, `nest, `append, `overflowed, `localLevel, `exprLevel, `argLevel
      ensures Current() == copy
    {
      cur, outCur, prevName, prevLen, nest := copy.cur, copy.outCur, copy.prevName, copy.prevLen, copy.nest;
      append, overflowed := copy.append, copy.overflowed;
      localLevel, exprLevel, argLevel := copy.local, copy.expr, copy.arg;
    }

    /** "*state = copy", where "a" is the whole state when the copy was taken. */
    method Restore(copy: Fields, ghost a: Snap)
      requires Valid() && Saved(copy, a)
      modifies this
      ensures Valid() && now.c == a.c && now.o == old(now).o.Rollback(a.o)
    {
      hide Good;
      Assign(copy);
      now := Snap(a.c, now.o.Rollback(a.o));
    }

    // ---------------------------------------------------------------- printing

    /** One character at "src": of a text, or of memory at and behind an index of the buffer. */
    method Fetch(src: Pointer, i: nat) returns (ch: char)
      requires src.Bytes? ==> i < |src.s|
      modifies `stray
      ensures ch == old(Page()).Read(src, i) && stray == (old(stray) || old(Page()).Outside(src, i))
    {
      match src
      case Bytes(s) => ch := s[i];
      case Buffer(at) =>
        if at + i < out.Length {
          ch := out[at + i];
        } else {
          ch := behind(at + i - out.Length);
          stray := true;
        }
    }

    /** Appends as much of the text as fits, and a terminator unless something did not. */
    method Append(src: Pointer, length: nat)
      requires 0 < length && (src.Bytes? ==> length <= |src.s|)
      requires Page().Within()
      modifies `outCur, `overflowed, `stray, out
      ensures Page() == old(Page()).Append(src, length) && Page().Within()
    {
      var i := 0;
      while i < length
        invariant i <= length && (outCur < out.Length || outCur == i == 0)
        invariant Page().Copy(src, i, length) == old(Page()).Copy(src, 0, length)
      {
        if outCur + 1 < out.Length {
          ghost var was := Page();
          var ch := Fetch(src, i);
          out[outCur] := ch;
          outCur := outCur + 1;
          assert out[..] == was.bytes[was.cur := ch];
        } else {
          overflowed := true;
          break;
        }
        i := i + 1;
      }
      ghost var was := Page();
      assert was == old(Page()).Copy(src, 0, length);
      if !overflowed {
        out[outCur] := '\0';
        assert out[..] == was.bytes[was.cur := '\0'];
      }
    }

    method MaybeAppendWithLength(src: Pointer, length: int)
      requires src.Bytes? ==> length <= |src.s|
      requires Page().Within()
      modifies `outCur, `overflowed, `prevName, `prevLen, `stray, out
      ensures Page() == if append && length > 0 then old(Page()).Print(src, length) else old(Page())
      ensures Page().Within()
    {
      hide Tape.Copy, Tape.Append;
      if append && length > 0 {
        var first := Fetch(src, 0);
        if first == '<' && 0 < outCur && out[outCur - 1] == '<' {
          Append(Bytes(" "), 1);
        }
        if IsAlpha(first) || first == '_' {
          prevName := outCur;
          prevLen := length;
        }
        Append(src, length);
      }
    }

    /** Appends the remembered name, whose place in the buffer the caller has read. */
    method AppendPrevName(name: nat, length: int)
      requires Valid() && name == now.o.tape.name && length == now.o.tape.len
      modifies this, out
      ensures Valid() && Printed(old(now), now, old(now).o.PrintPrev())
    {
      MaybeAppendWithLength(Buffer(name), length);
      now := now.(o := now.o.PrintPrev());
    }

    method PrintText(str: string, length: int)
      requires Valid() && if length > 0 then length == |str| else str == ""
      modifies this, out
      ensures Valid() && Printed(old(now), now, old(now).o.Print(str))
    {
      MaybeAppendWithLength(Bytes(str), length);
      now := now.(o := now.o.Print(str));
    }

    method MaybeAppend(str: string)
      requires Valid()
      modifies this, out
      ensures Valid() && Printed(old(now), now, old(now).o.Print(str))
      ensures !StartsName(str) ==> now.o.tape.name == old(now).o.tape.name && now.o.tape.len == old(now).o.tape.len
    {
      if append {
        PrintText(str, |str|);
        if str != "" && !StartsName(str) { NameKept(old(now).o.tape, str); }
      }
    }

    // ---------------------------------------------------------------- modes

    method EnterNestedName()
      requires Valid()
      modifies `nest, `now
      ensures Valid() && now == Snap(old(now).c, old(now).o.(nest := 0))
    {
      nest := 0;
      now := now.(o := now.o.(nest := 0));
    }

    method LeaveNestedName(prevValue: int)
      requires Valid()
      modifies `nest, `now
      ensures Valid() && now == Snap(old(now).c, old(now).o.(nest := prevValue))
    {
      nest := prevValue;
      now := now.(o := now.o.(nest := prevValue));
    }

    method DisableAppend()
      requires Valid()
      modifies `append, `now
      ensures Valid() && now == Snap(old(now).c, old(now).o.(append := false))
    {
      append := false;
      now := now.(o := now.o.(append := false));
    }

    method RestoreAppend(prevValue: bool)
      requires Valid()
      modifies `append, `now
      ensures Valid() && now == Snap(old(now).c, old(now).o.(append := prevValue))
    {
      append := prevValue;
      now := now.(o := now.o.(append := prevValue));
    }

    /** nest_level is a short: it wraps. */
    method MaybeIncreaseNestLevel()
      requires Valid()
      modifies `nest, `now
      ensures Valid() && now == Snap(old(now).c, old(now).o.Descend())
      ensures now.o.append == old(now).o.append
    {
      if nest > -1 {
        nest := if nest == SHORT_MAX then -SHORT_MAX - 1 else nest + 1;
      }
      now := now.(o := now.o.Descend());
    }

    method MaybeAppendSeparator()
      requires Valid()
      modifies this, out
      ensures Valid() && Printed(old(now), now, old(now).o.Separate())
    {
      if nest >= 1 {
        MaybeAppend("::");
      }
    }

    method MaybeCancelLastSeparator()
      requires Valid()
      modifies `outCur, `now, out
      ensures Valid() && Printed(old(now), now, old(now).o.Cancel())
    {
      if nest >= 1 && append && outCur >= 2 {
        outCur := outCur - 2;
        out[outCur] := '\0';
        assert out[..] == now.o.tape.bytes[outCur := '\0'];
      }
      now := now.(o := now.o.Cancel());
    }

    // ---------------------------------------------------------------- tokens

    method Advance(n: nat)
      requires Valid() && HasChars(text, now.c.pos, n)
      modifies `cur, `now
      ensures Valid() && MovedTo(text, old(now), now, old(now).c.Skip(n))
    {
      cur := cur + n;
      now := now.(c := now.c.Skip(n));
    }

    method Peek() returns (ch: char)
      requires Valid()
      ensures now.c.pos < |text| && ch == text[now.c.pos]
    {
      ch := text[cur];
    }

    method ParseOneCharToken(token: char) returns (ok: bool)
      requires Valid() && token != '\0'
      modifies `cur, `now
      ensures ok == Is(text, old(now).c, token)
      ensures Valid() && MovedTo(text, old(now), now, old(now).c.Skip(if ok then 1 else 0))
    {
      ok := text[cur] == token;
      Advance(if ok then 1 else 0);
    }

    method ParseTwoCharToken(first: char, second: char) returns (ok: bool)
      requires Valid() && first != '\0' && second != '\0'
      modifies `cur, `now
      ensures ok == Is2(text, old(now).c, first, second)
      ensures Valid() && MovedTo(text, old(now), now, old(now).c.Skip(if ok then 2 else 0))
    {
      ok := text[cur] == first && text[cur + 1] == second;
      Advance(if ok then 2 else 0);
    }

    method ParseCharClass(charClass: string) returns (ok: bool)
      requires Valid() && '\0' !in charClass
      modifies `cur, `now
      ensures ok == IsAny(text, old(now).c, charClass)
      ensures Valid() && MovedTo(text, old(now), now, old(now).c.Skip(if ok then 1 else 0))
    {
      ok := false;
      var p := 0;
      while p < |charClass| && !ok
        invariant p <= |charClass|
        invariant if ok then text[cur] in charClass else text[cur] !in charClass[..p]
      {
        ok := text[cur] == charClass[p];
        p := p + 1;
      }
      Advance(if ok then 1 else 0);
    }

    method AtLeastNumCharsRemaining(n: int) returns (b: bool)
      requires Valid()
      ensures b == HasChars(text, now.c.pos, n)
    {
      var i := 0;
      while i < n
        invariant i == 0 || i <= n
        invariant cur + i < |text|
      {
        if text[cur + i] == '\0' { return false; }
        i := i + 1;
      }
      return true;
    }

    method StrPrefix(prefix: string) returns (b: bool)
      requires Valid() && '\0' !in prefix
      ensures b == StartsWith(text, now.c.pos, prefix)
    {
      var i := 0;
      while i < |prefix| && text[cur + i] == prefix[i]
        invariant i <= |prefix| && cur + i < |text|
        invariant forall j :: 0 <= j < i ==> text[cur + j] == prefix[j]
      {
        assert prefix[i] in prefix;
        i := i + 1;
      }
      b := i == |prefix|;
      if b {
        assert text[cur..cur + |prefix|] == prefix;
      } else if cur + |prefix| <= |text| {
        assert text[cur..cur + |prefix|][i] != prefix[i];
      }
    }

    // ---------------------------------------------------------------- leaves

    /** The value of the digits at "from"; stops with "fits" false just when an int cannot hold it. */
    method ScanDecimal(from: nat) returns (fits: bool, p: nat, number: int)
      requires from < |text|
      ensures fits == (Decimal(text[from..RunEnd(text, from, IsDigit)]) <= INT_MAX)
      ensures fits ==> p == RunEnd(text, from, IsDigit) && number == Decimal(text[from..p])
    {
      p, number := from, 0;
      while text[p] != '\0' && IsDigit(text[p])
        invariant from <= p < |text|
        invariant AllDigits(text[from..p]) && 0 <= number == Decimal(text[from..p]) <= INT_MAX
        invariant RunEnd(text, from, IsDigit) == RunEnd(text, p, IsDigit)
        decreases |text| - p
      {
        DecimalStep(text, from, p);
        if number > INT_MAX / 10 { return false, p, 0; }
        var digit := text[p] as int - '0' as int;
        var shifted := number * 10;
        if digit > INT_MAX - shifted { return false, p, 0; }
        number := shifted + digit;
        p := p + 1;
      }
      fits := true;
    }

    method ParseNumber() returns (ok: bool, number: int)
      requires Valid()
      modifies `cur, `now
      ensures var r := Number(text, old(now).c);
              ok == r.ok && number == r.value && Valid() && MovedTo(text, old(now), now, r.c)
    {
      var negative := ParseOneCharToken('n');
      var fits, p, value := ScanDecimal(cur);
      ok, number := fits && p != cur, 0;
      if ok {
        Advance(p - cur);
        number := if negative then -value else value;
      }
    }

    method SkipRun(from: nat, cls: char -> bool) returns (p: nat)
      requires from < |text| && !cls('\0')
      ensures p == RunEnd(text, from, cls)
    {
      p := from;
      while cls(text[p])
        invariant from <= p < |text| && RunEnd(text, from, cls) == RunEnd(text, p, cls)
        decreases |text| - p
      {
        p := p + 1;
      }
    }

    /** The scanning loops: on to the end of the run of characters of one class. */
    method ParseRun(cls: char -> bool) returns (ok: bool)
      requires Valid() && !cls('\0')
      modifies `cur, `now
      ensures Valid() && MovedTo(text, old(now), now, old(now).c.(pos := RunEnd(text, old(now).c.pos, cls)))
      ensures ok == (now.c.pos > old(now).c.pos)
    {
      Reflect();
      var p := SkipRun(cur, cls);
      ok := p != cur;
      Advance(p - cur);
    }

    method ParseFloatNumber() returns (ok: bool)
      requires Valid()
      modifies `cur, `now
      ensures var q := RunEnd(text, old(now).c.pos, IsLowerHex);
              Valid() && MovedTo(text, old(now), now, old(now).c.(pos := q)) && ok == (q > old(now).c.pos)
    {
      ok := ParseRun(IsLowerHex);
    }

    method ParseSeqId() returns (ok: bool)
      requires Valid()
      modifies `cur, `now
      ensures var q := RunEnd(text, old(now).c.pos, IsSeqChar);
              Valid() && MovedTo(text, old(now), now, old(now).c.(pos := q)) && ok == (q > old(now).c.pos)
    {
      ok := ParseRun(IsSeqChar);
    }

    method ParseIdentifier(length: int) returns (ok: bool)
      requires Valid()
      modifies this, out
      ensures Valid() && ok == (length >= 0 && HasChars(text, old(now).c.pos, length))
      ensures ok ==>
                && now.c == old(now).c.Skip(length) && Good(text, now.c)
                && now.o == old(now).o.Print(IdentifierText(text, old(now).c.pos, length))
                && now.o.nest == old(now).o.nest && now.o.append == old(now).o.append
      ensures !ok ==> now == old(now)
    {
      var enough := AtLeastNumCharsRemaining(length);
      if length < 0 || !enough {
        return false;
      }
      PrintIdentifier(length);
      Advance(length);
      ok := true;
    }

    method PrintIdentifier(length: nat)
      requires Valid() && HasChars(text, now.c.pos, length)
      modifies this, out
      ensures Valid()
      ensures Printed(old(now), now, old(now).o.Print(IdentifierText(text, old(now).c.pos, length)))
    {
      hide Valid, Out.Print, StartsWith;
      Reflect();
      var anonymous := StrPrefix(ANONYMOUS);
      if length > |ANONYMOUS| && anonymous {
        MaybeAppend("(anonymous namespace)");
      } else {
        PrintText(text[cur..cur + length], length);
      }
    }

    method ParseSourceName() returns (ok: bool)
      requires Valid()
      modifies this, out
      ensures Valid() && Follows(text, old(now), now, SourceName(text, old(now).c), ok)
    {
      hide Valid, Saved, Frozen, Clean, Flat;
      Reflect();
      var copy := Current();
      ghost var a := now;
      var length;
      ok, length := ParseNumber();
      if ok {
        ok := ParseIdentifier(length);
      }
      if !ok {
        Restore(copy, a);
      }
    }

    method ParseDiscriminator() returns (ok: bool)
      requires Valid()
      modifies this, out
      ensures Valid() && Follows(text, old(now), now, Discriminator(text, old(now).c), ok)
    {
      hide Valid, Saved, Frozen, Clean, Flat;
      Reflect();
      var copy := Current();
      ghost var a := now;
      ok := ParseOneCharToken('_');
      if ok {
        var number;
        ok, number := ParseNumber();
      }
      if !ok {
        Restore(copy, a);
      }
    }

    method ParseLocalSourceName() returns (ok: bool)
      requires Valid()
      modifies this, out
      ensures Valid() && Follows(text, old(now), now, LocalSourceName(text, old(now).c), ok)
    {
      hide Valid, Saved, Frozen, Clean, Flat;
      Reflect();
      var copy := Current();
      ghost var a := now;
      ok := ParseOneCharToken('L');
      if ok {
        ok := ParseSourceName();
        if ok {
          var tagged := ParseDiscriminator();
          return;
        }
      }
      Restore(copy, a);
    }

    method ParseAbiTag() returns (ok: bool)
      requires Valid()
      modifies this, out
      ensures Valid() && Follows(text, old(now), now, AbiTag(text, old(now).c), ok)
    {
      hide Valid, Saved, Frozen, Clean, Flat;
      Reflect();
      ghost var a := now;
      ok := ParseOneCharToken('B');
      if ok {
        ok := ParseSourceName();
      }
    }

    method OneOrMoreAbiTags() returns (ok: bool)
      requires Valid()
      modifies this, out
      ensures Valid() && Follows(text, old(now), now, AbiTagPlus(text, old(now).c), ok)
    {
      hide Valid, Saved, Frozen, Clean, Flat;
      Reflect();
      ghost var a := now;
      ok := ParseAbiTag();
      if ok {
        ghost var b, all := now, AbiTagStar(text, now.c);
        var more := true;
        while more
          invariant Valid() && Good(text, now.c)
          invariant now.o.append == a.o.append && now.o.nest == a.o.nest && now.c.pos >= b.c.pos
          invariant var rest := if more then AbiTagStar(text, now.c) else Pass(now.c);
                    all.c == rest.c && Exec(all.tr, b.o) == Exec(rest.tr, now.o)
          decreases |text| - now.c.pos, more
        {
          more := ParseAbiTag();
        }
      }
    }

    method ParseAbiTags() returns (ok: bool)
      requires Valid()
      modifies this, out
      ensures Valid() && Follows(text, old(now), now, AbiTags(text, old(now).c), ok)
    {
      hide Valid, Saved, Frozen, Clean, Flat, AbiTagPlus;
      Reflect();
      var copy := Current();
      ghost var a := now;
      DisableAppend();
      ok := OneOrMoreAbiTags();
      if ok {
        RestoreAppend(copy.append);
      } else {
        Restore(copy, a);
      }
    }

    method ParseNVOffset() returns (ok: bool)
      requires Valid()
      modifies `cur, `now
      ensures var r := Number(text, old(now).c);
              ok == r.ok && Valid() && MovedTo(text, old(now), now, r.c)
    {
      var number;
      ok, number := ParseNumber();
    }

    method ParseVOffset() returns (ok: bool)
      requires Valid()
      modifies this, out
      ensures Valid() && Follows(text, old(now), now, VOffset(text, old(now).c), ok)
    {
      hide Valid, Saved, Frozen, Clean, Flat;
      Reflect();
      var copy := Current();
      ghost var a := now;
      var number;
      ok, number := ParseNumber();
      if ok {
        ok := ParseOneCharToken('_');
        if ok {
          ok, number := ParseNumber();
        }
      }
      if !ok {
        Restore(copy, a);
      }
    }

    method ParseThisOffset() returns (ok: bool)
      requires Valid()
      modifies this, out
      ensures Valid() && Follows(text, old(now), now, ThisOffset(text, old(now).c), ok)
    {
      hide Valid, Saved, Frozen, Clean, Flat, Number;
      Reflect();
      var copy := Current();
      ghost var a := now;
      ok := ParseOneCharToken('h');
      if ok {
        ok := ParseNVOffset();
        if ok {
          ok := ParseOneCharToken('_');
          if ok { return; }
        }
      }
      Restore(copy, a);
    }

    method ParseVirtualOffset() returns (ok: bool)
      requires Valid()
      modifies this, out
      ensures Valid() && Follows(text, old(now), now, VirtualOffset(text, old(now).c), ok)
    {
      hide Valid, Saved, Frozen, Clean, Flat, VOffset;
      Reflect();
      var copy := Current();
      ghost var a := now;
      ok := ParseOneCharToken('v');
      if ok {
        ok := ParseVOffset();
        if ok {
          ok := ParseOneCharToken('_');
          if ok { return; }
        }
      }
      Restore(copy, a);
    }

    method ParseCallOffset() returns (ok: bool)
      requires Valid()
      modifies this, out
      ensures Valid() && Follows(text, old(now), now, CallOffset(text, old(now).c), ok)
    {
      hide Valid, Saved, Frozen, Clean, Flat, ThisOffset, VirtualOffset;
      Reflect();
      ok := ParseThisOffset();
      if !ok {
        ok := ParseVirtualOffset();
      }
    }

    method ParseCtorName() returns (ok: bool)
      requires Valid()
      modifies this, out
      ensures Valid() && Follows(text, old(now), now, CtorName(text, old(now).c), ok)
    {
      hide Valid, Saved, Frozen, Clean, Flat, IsAny;
      Reflect();
      var copy := Current();
      ghost var a := now;
      ok := ParseOneCharToken('C');
      if ok {
        AnyDigit(text, now.c);
        ok := ParseCharClass("123");
        if ok {
          Reflect();
          AppendPrevName(prevName, prevLen);
          return;
        }
      }
      Restore(copy, a);
    }

    method ParseDtorName() returns (ok: bool)
      requires Valid()
      modifies this, out
      ensures Valid() && Follows(text, old(now), now, DtorName(text, old(now).c), ok)
    {
      hide Valid, Saved, Frozen, Clean, Flat, IsAny;
      Reflect();
      var copy := Current();
      ghost var a := now;
      ok := ParseOneCharToken('D');
      if ok {
        AnyDigit(text, now.c);
        ok := ParseCharClass("012");
        if ok {
          Reflect();
          var name, length := prevName, prevLen;
          MaybeAppend("~");
          AppendPrevName(name, length);
          return;
        }
      }
      Restore(copy, a);
    }

    method ParseCtorDtorName() returns (ok: bool)
      requires Valid()
      modifies this, out
      ensures Valid() && Follows(text, old(now), now, CtorDtorName(text, old(now).c), ok)
    {
      hide Valid, Saved, Frozen, Clean, Flat, CtorName, DtorName;
      Reflect();
      ok := ParseCtorName();
      if !ok {
        ok := ParseDtorName();
      }
    }

    method ParseCVQualifiers() returns (ok: bool)
      requires Valid()
      modifies this, out
      ensures Valid() && Follows(text, old(now), now, CVQualifiers(text, old(now).c), ok)
    {
      hide Valid, Saved, Frozen, Clean, Flat;
      Reflect();
      var r := ParseOneCharToken('r');
      var v := ParseOneCharToken('V');
      var k := ParseOneCharToken('K');
      ok := r || v || k;
    }

    method FindAbbrev(table: seq<Abbrev>, key: Key) returns (p: nat)
      ensures p == Lookup(table, key, 0)
    {
      p := 0;
      while p < |table| && !Hits(table[p], key)
        invariant p <= |table| && Lookup(table, key, 0) == Lookup(table, key, p)
      {
        p := p + 1;
      }
    }

    method ParseBuiltinType() returns (ok: bool)
      requires Valid()
      modifies this, out
      ensures Valid() && Follows(text, old(now), now, BuiltinType(text, old(now).c), ok)
    {
      hide Valid, Saved, Frozen, Clean, Flat, Out.Print, Lookup;
      Reflect();
      var c := Peek();
      var p := FindAbbrev(BUILTINS, First(c));
      if p < |BUILTINS| {
        MaybeAppend(BUILTINS[p].name);
        Advance(1);
        return true;
      }
      Reflect();
      var copy := Current();
      ghost var a := now;
      ok := ParseOneCharToken('u');
      if ok {
        ok := ParseSourceName();
        if ok { return; }
      }
      Restore(copy, a);
    }

    method ParseTemplateParam() returns (ok: bool)
      requires Valid()
      modifies this, out
      ensures Valid() && Follows(text, old(now), now, TemplateParam(text, old(now).c), ok)
    {
      hide Valid, Saved, Frozen, Clean, Flat, Number;
      Reflect();
      ok := ParseTwoCharToken('T', '_');
      if ok {
        MaybeAppend("?");
        return;
      }
      Reflect();
      var copy := Current();
      ghost var a := now;
      ok := ParseOneCharToken('T');
      if ok {
        var number;
        ok, number := ParseNumber();
        if ok {
          ok := ParseOneCharToken('_');
          if ok {
            MaybeAppend("?");
            return;
          }
        }
      }
      Restore(copy, a);
    }

    method ParseNumberedSubstitution() returns (ok: bool)
      requires Valid()
      modifies this, out
      ensures Valid() && Follows(text, old(now), now, NumberedSubstitution(text, old(now).c), ok)
    {
      hide Valid, Saved, Frozen, Clean, Flat;
      Reflect();
      var copy := Current();
      ghost var a := now;
      ok := ParseOneCharToken('S');
      if ok {
        ok := ParseSeqId();
        if ok {
          ok := ParseOneCharToken('_');
          if ok {
            MaybeAppend("?");
            return;
          }
        }
      }
      Restore(copy, a);
    }

    method ParseStdSubstitution() returns (ok: bool)
      requires Valid()
      modifies this, out
      ensures Valid() && Follows(text, old(now), now, StdSubstitution(text, old(now).c), ok)
    {
      hide Valid, Saved, Frozen, Clean, Flat, Lookup;
      Reflect();
      var copy := Current();
      ghost var a := now;
      ok := ParseOneCharToken('S');
      if ok {
        SubstitutionsHaveNoNul();
        var c := Peek();
        var p := FindAbbrev(SUBSTITUTIONS, Second(c));
        if p < |SUBSTITUTIONS| {
          PrintStd(SUBSTITUTIONS[p].name);
          Advance(1);
          return;
        }
      }
      Restore(copy, a);
      ok := false;
    }

    method ParseSubstitution() returns (ok: bool)
      requires Valid()
      modifies this, out
      ensures Valid() && Follows(text, old(now), now, Substitution(text, old(now).c), ok)
    {
      hide Valid, Saved, Frozen, Clean, Flat, NumberedSubstitution, StdSubstitution;
      Reflect();
      ok := ParseTwoCharToken('S', '_');
      if ok {
        MaybeAppend("?");
        return;
      }
      ok := ParseNumberedSubstitution();
      if !ok {
        ok := ParseStdSubstitution();
      }
    }

    method PrintStd(name: string)
      requires Valid()
      modifies this, out
      ensures Valid() && Printed(old(now), now, Exec(StdTrace(name), old(now).o))
    {
      hide Valid, Saved, Frozen, Clean, Flat;
      Reflect();
      MaybeAppend("std");
      if name != "" {
        ghost var o := now.o;
        MaybeAppend("::");
        MaybeAppend(name);
        assert Exec(Both(Emit("::"), Emit(name)), o) == o.Print("::").Print(name);
      }
    }

    method ParseTemplateTemplateParam() returns (ok: bool)
      requires Valid()
      modifies this, out
      ensures Valid() && Follows(text, old(now), now, TemplateTemplateParam(text, old(now).c), ok)
    {
      hide Valid, Saved, Frozen, Clean, Flat;
      Reflect();
      ok := ParseTemplateParam();
      if !ok {
        ok := ParseSubstitution();
      }
    }

    method SetLevels(local: nat, expr: nat, arg: nat)
      requires Valid() && local <= MAX_LEVELS + 1 && expr <= MAX_LEVELS + 1 && arg <= MAX_LEVELS + 1
      modifies `localLevel, `exprLevel, `argLevel, `now
      ensures Valid() && MovedTo(text, old(now), now, Core(old(now).c.pos, local, expr, arg))
    {
      localLevel, exprLevel, argLevel := local, expr, arg;
      now := now.(c := Core(now.c.pos, local, expr, arg));
    }

    method PrintOperator(name: Text)
      requires Valid()
      modifies this, out
      ensures Valid() && Printed(old(now), now, Exec(OperatorTrace(name), old(now).o))
    {
      hide Valid, Saved, Frozen, Clean, Flat;
      Reflect();
      MaybeAppend("operator");
      if IsLower(FirstChar(name)) {
        MaybeAppend(" ");
      }
      MaybeAppend(name);
      OperatorRun(name, old(now).o);
    }

    // ---------------------------------------------------------------- names

    /** Leaves "_Z" consumed when the encoding fails. */
    method ParseMangledName() returns (ok: bool)
      requires Valid()
      modifies this, out
      ensures Valid() && Follows(text, old(now), now, MangledName(text, old(now).c), ok)
      decreases |text| - now.c.pos, 0
    {
      hide Valid, Saved, Frozen, Clean, Flat, Encoding;
      Reflect();
      ok := ParseTwoCharToken('_', 'Z');
      if ok {
        ok := ParseEncoding();
      }
    }

    method ParseEncoding() returns (ok: bool)
      requires Valid()
      modifies this, out
      ensures Valid() && Follows(text, old(now), now, Encoding(text, old(now).c), ok)
      decreases |text| - now.c.pos, 6
    {
      hide Valid, Saved, Frozen, Clean, Flat, Name, BareFunctionType, SpecialName;
      Reflect();
      var copy := Current();
      ghost var a := now;
      ok := ParseName();
      if ok {
        ok := ParseBareFunctionType();
        if ok { return; }
      }
      Restore(copy, a);
      ok := ParseName();
      if !ok {
        ok := ParseSpecialName();
      }
    }

    method ParseName() returns (ok: bool)
      requires Valid()
      modifies this, out
      ensures Valid() && Follows(text, old(now), now, Name(text, old(now).c), ok)
      decreases |text| - now.c.pos, 5
    {
      hide Valid, Saved, Frozen, Clean, Flat, NestedName, LocalName, UnscopedTemplateName, TemplateArgs, UnscopedName;
      Reflect();
      ok := ParseNestedName();
      if ok { return; }
      ok := ParseLocalName();
      if ok { return; }
      Reflect();
      var copy := Current();
      ghost var a := now;
      ok := ParseUnscopedTemplateName();
      if ok {
        ok := ParseTemplateArgs();
        if ok { return; }
      }
      Restore(copy, a);
      ok := ParseUnscopedName();
    }

    method ParseUnscopedName() returns (ok: bool)
      requires Valid()
      modifies this, out
      ensures Valid() && Follows(text, old(now), now, UnscopedName(text, old(now).c), ok)
      decreases |text| - now.c.pos, 3
    {
      hide Valid, Saved, Frozen, Clean, Flat, UnqualifiedName;
      Reflect();
      ok := ParseUnqualifiedName();
      if ok { return; }
      Reflect();
      var copy := Current();
      ghost var a := now;
      ok := ParseTwoCharToken('S', 't');
      if ok {
        MaybeAppend("std::");
        ok := ParseUnqualifiedName();
        if ok { return; }
      }
      Restore(copy, a);
    }

    method ParseUnscopedTemplateName() returns (ok: bool)
      requires Valid()
      modifies this, out
      ensures Valid() && Follows(text, old(now), now, UnscopedTemplateName(text, old(now).c), ok)
      decreases |text| - now.c.pos, 4
    {
      hide Valid, Saved, Frozen, Clean, Flat, UnscopedName, Substitution;
      Reflect();
      ok := ParseUnscopedName();
      if ok { return; }
      ok := ParseSubstitution();
    }

    method ParseNestedName() returns (ok: bool)
      requires Valid()
      modifies this, out
      ensures Valid() && Follows(text, old(now), now, NestedName(text, old(now).c), ok)
      decreases |text| - now.c.pos, 0
    {
      hide Valid, Saved, Frozen, Clean, Flat, CVQualifiers, Prefix;
      Reflect();
      var copy := Current();
      ghost var a := now;
      ok := ParseOneCharToken('N');
      if ok {
        EnterNestedName();
        var qualified := ParseCVQualifiers();
        ok := ParsePrefix();
        LeaveNestedName(copy.nest);
        ok := ParseOneCharToken('E');
        if ok { return; }
      }
      Restore(copy, a);
    }

    method ParsePrefixPart() returns (ok: bool)
      requires Valid()
      modifies this, out
      ensures Valid() && Follows(text, old(now), now, PrefixPart(text, old(now).c), ok)
      decreases |text| - now.c.pos, 4
    {
      hide Valid, Saved, Frozen, Clean, Flat, TemplateParam, Substitution, UnscopedName;
      Reflect();
      ok := ParseTemplateParam();
      if ok { return; }
      ok := ParseSubstitution();
      if ok { return; }
      ok := ParseUnscopedName();
    }

    method ParseUnqualifiedName() returns (ok: bool)
      requires Valid()
      modifies this, out
      ensures Valid() && Follows(text, old(now), now, UnqualifiedName(text, old(now).c), ok)
      decreases |text| - now.c.pos, 2
    {
      hide Valid, Saved, Frozen, Clean, Flat, OperatorName, CtorDtorName, SourceName, LocalSourceName, AbiTags;
      Reflect();
      ok := ParseOperatorName();
      if ok { return; }
      ok := ParseCtorDtorName();
      if ok { return; }
      ok := ParseSourceName();
      if ok {
        var tagged := ParseAbiTags();
        return;
      }
      ok := ParseLocalSourceName();
      if ok {
        var tagged := ParseAbiTags();
      }
    }

    /** The prefix loop; a separator printed for a component that does not come is taken back. */
    method ParsePrefix() returns (ok: bool)
      requires Valid()
      modifies this, out
      ensures Valid() && FollowsPrefix(text, old(now), now, Prefix(text, old(now).c, false), ok)
      decreases |text| - now.c.pos, 5
    {
      hide Valid, Saved, Frozen, Clean, Flat, Exec, Prefix, PrefixPart, TemplateArgs;
      Reflect();
      ghost var a, all := now, Prefix(text, now.c, false);
      var hasSomething := false;
      while true
        invariant Valid() && Good(text, now.c)
        invariant now.o.append == a.o.append && now.c.pos >= a.c.pos
        invariant hasSomething ==> now.c.pos > a.c.pos
        invariant var rest := Prefix(text, now.c, hasSomething);
                  all.c == rest.c && Exec(all.tr, a.o) == Exec(rest.tr, now.o)
        decreases |text| - now.c.pos
      {
        Reflect();
        ghost var b := now;
        MaybeAppendSeparator();
        ok := ParsePrefixPart();
        PrefixTurn(text, b.c, hasSomething, b.o);
        if ok {
          hasSomething := true;
          MaybeIncreaseNestLevel();
          continue;
        }
        MaybeCancelLastSeparator();
        if hasSomething {
          ok := ParseTemplateArgs();
          if ok {
            ok := ParsePrefix();
            return;
          }
        }
        return true;
      }
    }

    method ParseOperatorName() returns (ok: bool)
      requires Valid()
      modifies this, out
      ensures Valid() && Follows(text, old(now), now, OperatorName(text, old(now).c), ok)
      decreases |text| - now.c.pos, 1
    {
      hide Valid, Saved, Frozen, Clean, Flat, Conversion, VendorOperator, PlainOperator;
      Reflect();
      ok := AtLeastNumCharsRemaining(2);
      if ok {
        ok := ParseConversion();
        if ok { return; }
        ok := ParseVendorOperator();
        if ok { return; }
        ok := ParsePlainOperator();
      }
    }

    method ParseConversion() returns (ok: bool)
      requires Valid()
      modifies this, out
      ensures Valid() && Follows(text, old(now), now, Conversion(text, old(now).c), ok)
      decreases |text| - now.c.pos, 0
    {
      hide Valid, Saved, Frozen, Clean, Flat, Type;
      Reflect();
      var copy := Current();
      ghost var a := now;
      ok := ParseTwoCharToken('c', 'v');
      if ok {
        MaybeAppend("operator ");
        Reflect();
        EnterNestedName();
        ok := ParseType();
        if ok {
          LeaveNestedName(copy.nest);
          return;
        }
      }
      Restore(copy, a);
    }

    method ParseVendorOperator() returns (ok: bool)
      requires Valid()
      modifies this, out
      ensures Valid() && Follows(text, old(now), now, VendorOperator(text, old(now).c), ok)
      decreases |text| - now.c.pos, 0
    {
      hide Valid, Saved, Frozen, Clean, Flat, SourceName, IsAny;
      Reflect();
      var copy := Current();
      ghost var a := now;
      ok := ParseOneCharToken('v');
      if ok {
        AnyDigit(text, now.c);
        ok := ParseCharClass("0123456789");
        if ok {
          ok := ParseSourceName();
          if ok {
            return;
          }
        }
      }
      Restore(copy, a);
    }

    /** The table of two-letter operators. */
    method ParsePlainOperator() returns (ok: bool)
      requires Valid() && HasChars(text, now.c.pos, 2)
      modifies this, out
      ensures Valid() && Follows(text, old(now), now, PlainOperator(text, old(now).c), ok)
      decreases |text| - now.c.pos, 0
    {
      hide Valid, Saved, Frozen, Clean, Flat, Lookup;
      Reflect();
      var first, second := text[cur], text[cur + 1];
      if !(IsLower(first) && IsAlpha(second)) {
        return false;
      }
      var p := FindAbbrev(OPERATORS, Pair(first, second));
      ok := p < |OPERATORS|;
      if ok {
        PrintOperator(OPERATORS[p].name);
        Advance(2);
      }
    }

    method ParseSpecialType(charClass: string) returns (ok: bool)
      requires Valid() && '\0' !in charClass
      modifies this, out
      ensures Valid() && Follows(text, old(now), now, SpecialType(text, old(now).c, charClass), ok)
      decreases |text| - now.c.pos, 0
    {
      hide Valid, Saved, Frozen, Clean, Flat, Type;
      Reflect();
      var copy := Current();
      ghost var a := now;
      ok := ParseOneCharToken('T');
      if ok {
        ok := ParseCharClass(charClass);
        if ok {
          ok := ParseType();
          if ok {
            return;
          }
        }
      }
      Restore(copy, a);
    }

    method ParseCovariantThunk() returns (ok: bool)
      requires Valid()
      modifies this, out
      ensures Valid() && Follows(text, old(now), now, CovariantThunk(text, old(now).c), ok)
      decreases |text| - now.c.pos, 0
    {
      hide Valid, Saved, Frozen, Clean, Flat, CallOffset, Encoding;
      Reflect();
      var copy := Current();
      ghost var a := now;
      ok := ParseTwoCharToken('T', 'c');
      if ok {
        ok := ParseCallOffset();
        if ok {
          ok := ParseCallOffset();
          if ok {
            ok := ParseEncoding();
            if ok {
              return;
            }
          }
        }
      }
      Restore(copy, a);
    }

    method ParseGuardName(second: char) returns (ok: bool)
      requires Valid() && second != '\0'
      modifies this, out
      ensures Valid() && Follows(text, old(now), now, GuardName(text, old(now).c, second), ok)
      decreases |text| - now.c.pos, 0
    {
      hide Valid, Saved, Frozen, Clean, Flat, Name;
      Reflect();
      var copy := Current();
      ghost var a := now;
      ok := ParseTwoCharToken('G', second);
      if ok {
        ok := ParseName();
        if ok {
          return;
        }
      }
      Restore(copy, a);
    }

    method ParseThunk(charClass: string) returns (ok: bool)
      requires Valid() && '\0' !in charClass
      modifies this, out
      ensures Valid() && Follows(text, old(now), now, Thunk(text, old(now).c, charClass), ok)
      decreases |text| - now.c.pos, 0
    {
      hide Valid, Saved, Frozen, Clean, Flat, CallOffset, Encoding;
      Reflect();
      var copy := Current();
      ghost var a := now;
      ok := ParseOneCharToken('T');
      if ok && charClass != "" {
        ok := ParseCharClass(charClass);
      }
      if ok {
        ok := ParseCallOffset();
        if ok {
          ok := ParseEncoding();
          if ok { return; }
        }
      }
      Restore(copy, a);
    }

    method ParseVtableOffset() returns (ok: bool)
      requires Valid()
      modifies `cur, `now
      ensures var r := VtableOffset(text, old(now).c);
              ok == r.ok && Valid() && MovedTo(text, old(now), now, r.c)
    {
      hide Valid, Number;
      Reflect();
      var number;
      ok, number := ParseNumber();
      if ok {
        ok := ParseOneCharToken('_');
      }
    }

    method ParseConstructionVtable() returns (ok: bool)
      requires Valid()
      modifies this, out
      ensures Valid() && Follows(text, old(now), now, ConstructionVtable(text, old(now).c), ok)
      decreases |text| - now.c.pos, 0
    {
      hide Valid, Saved, Frozen, Clean, Flat, Out.Print, Is2, Type, VtableOffset;
      Reflect();
      var copy := Current();
      ghost var a := now;
      ok := ParseTwoCharToken('T', 'C');
      if ok {
        ok := ParseType();
        if ok {
          ok := ParseVtableOffset();
          if ok {
            Reflect();
            DisableAppend();
            ok := ParseType();
            if ok {
              RestoreAppend(copy.append);
              return;
            }
          }
        }
      }
      Restore(copy, a);
    }

    method ParseGuardEncoding() returns (ok: bool)
      requires Valid()
      modifies this, out
      ensures Valid() && Follows(text, old(now), now, GuardEncoding(text, old(now).c), ok)
      decreases |text| - now.c.pos, 0
    {
      hide Valid, Saved, Frozen, Clean, Flat, Encoding;
      Reflect();
      var copy := Current();
      ghost var a := now;
      ok := ParseTwoCharToken('G', 'A');
      if ok {
        ok := ParseEncoding();
        if ok {
          return;
        }
      }
      Restore(copy, a);
    }

    method ParseSpecialName() returns (ok: bool)
      requires Valid()
      modifies this, out
      ensures Valid() && Follows(text, old(now), now, SpecialName(text, old(now).c), ok)
      decreases |text| - now.c.pos, 1
    {
      hide Valid, Saved, Frozen, Clean, Flat;
      hide SpecialType, CovariantThunk, GuardName, Thunk, ConstructionVtable, GuardEncoding;
      Reflect();
      ok := ParseSpecialType("VTIS");
      if ok { return; }
      ok := ParseCovariantThunk();
      if ok { return; }
      ok := ParseGuardName('V');
      if ok { return; }
      ok := ParseThunk("");
      if ok { return; }
      ok := ParseConstructionVtable();
      if ok { return; }
      ok := ParseSpecialType("FJ");
      if ok { return; }
      ok := ParseGuardName('R');
      if ok { return; }
      ok := ParseGuardEncoding();
      if ok { return; }
      ok := ParseThunk("hv");
    }

    // ---------------------------------------------------------------- types and expressions

    method ParseQualifiedType() returns (ok: bool)
      requires Valid()
      modifies this, out
      ensures Valid() && Follows(text, old(now), now, QualifiedType(text, old(now).c), ok)
      decreases |text| - now.c.pos, 0
    {
      hide Valid, Saved, Frozen, Clean, Flat, CVQualifiers, Type;
      Reflect();
      var copy := Current();
      ghost var a := now;
      ok := ParseCVQualifiers();
      if ok {
        ok := ParseType();
        if ok {
          return;
        }
      }
      Restore(copy, a);
    }

    method ParsePointerType() returns (ok: bool)
      requires Valid()
      modifies this, out
      ensures Valid() && Follows(text, old(now), now, PointerType(text, old(now).c), ok)
      decreases |text| - now.c.pos, 0
    {
      hide Valid, Saved, Frozen, Clean, Flat, Type;
      Reflect();
      var copy := Current();
      ghost var a := now;
      ok := ParseCharClass("OPRCG");
      if ok {
        ok := ParseType();
        if ok {
          return;
        }
      }
      Restore(copy, a);
    }

    method ParsePackExpansion() returns (ok: bool)
      requires Valid()
      modifies this, out
      ensures Valid() && Follows(text, old(now), now, PackExpansion(text, old(now).c), ok)
      decreases |text| - now.c.pos, 0
    {
      hide Valid, Saved, Frozen, Clean, Flat, Type;
      Reflect();
      var copy := Current();
      ghost var a := now;
      ok := ParseTwoCharToken('D', 'p');
      if ok {
        ok := ParseType();
        if ok {
          return;
        }
      }
      Restore(copy, a);
    }

    method ParseDeclType() returns (ok: bool)
      requires Valid()
      modifies this, out
      ensures Valid() && Follows(text, old(now), now, DeclType(text, old(now).c), ok)
      decreases |text| - now.c.pos, 0
    {
      hide Valid, Saved, Frozen, Clean, Flat, Expression;
      Reflect();
      var copy := Current();
      ghost var a := now;
      ok := ParseOneCharToken('D');
      if ok {
        ok := ParseCharClass("tT");
        if ok {
          ok := ParseExpression();
          if ok {
            ok := ParseOneCharToken('E');
            if ok {
              return;
            }
          }
        }
      }
      Restore(copy, a);
    }

    method ParseVendorType() returns (ok: bool)
      requires Valid()
      modifies this, out
      ensures Valid() && Follows(text, old(now), now, VendorType(text, old(now).c), ok)
      decreases |text| - now.c.pos, 0
    {
      hide Valid, Saved, Frozen, Clean, Flat, SourceName, Type;
      Reflect();
      var copy := Current();
      ghost var a := now;
      ok := ParseOneCharToken('U');
      if ok {
        ok := ParseSourceName();
        if ok {
          ok := ParseType();
          if ok {
            return;
          }
        }
      }
      Restore(copy, a);
    }

    method ParsePlainType() returns (ok: bool)
      requires Valid()
      modifies this, out
      ensures Valid() && Follows(text, old(now), now, PlainType(text, old(now).c), ok)
      decreases |text| - now.c.pos, 6
    {
      hide Valid, Saved, Frozen, Clean, Flat;
      hide BuiltinType, FunctionType, Name, ArrayType, PointerToMemberType, Substitution;
      Reflect();
      ok := ParseBuiltinType();
      if ok { return; }
      ok := ParseFunctionType();
      if ok { return; }
      ok := ParseClassEnumType();
      if ok { return; }
      ok := ParseArrayType();
      if ok { return; }
      ok := ParsePointerToMemberType();
      if ok { return; }
      ok := ParseSubstitution();
    }

    method ParseClassEnumType() returns (ok: bool)
      requires Valid()
      modifies this, out
      ensures Valid() && Follows(text, old(now), now, Name(text, old(now).c), ok)
      decreases |text| - now.c.pos, 6, 0
    {
      hide Valid, Saved, Frozen, Clean, Flat, Name;
      Reflect();
      ok := ParseName();
    }

    method ParseType() returns (ok: bool)
      requires Valid()
      modifies this, out
      ensures Valid() && Follows(text, old(now), now, Type(text, old(now).c), ok)
      decreases |text| - now.c.pos, 7
    {
      hide Valid, Saved, Frozen, Clean, Flat, TemplateTemplateParam, TemplateArgs, TemplateParam;
      hide QualifiedType, PointerType, PackExpansion, DeclType, VendorType, PlainType;
      Reflect();
      var copy := Current();
      ghost var a := now;
      ok := ParseQualifiedType();
      if ok { return; }
      ok := ParsePointerType();
      if ok { return; }
      ok := ParsePackExpansion();
      if ok { return; }
      ok := ParseDeclType();
      if ok { return; }
      ok := ParseVendorType();
      if ok { return; }
      Reflect();
      copy := Current();
      ghost var b := now;
      ok := ParsePlainType();
      if ok { return; }
      ok := ParseTemplateTemplateParam();
      if ok {
        ok := ParseTemplateArgs();
        if ok { return; }
      }
      Restore(copy, b);
      ok := ParseTemplateParam();
    }

    method ParseFunctionType() returns (ok: bool)
      requires Valid()
      modifies this, out
      ensures Valid() && Follows(text, old(now), now, FunctionType(text, old(now).c), ok)
      decreases |text| - now.c.pos, 0
    {
      hide Valid, Saved, Frozen, Clean, Flat, BareFunctionType;
      Reflect();
      var copy := Current();
      ghost var a := now;
      ok := ParseOneCharToken('F');
      if ok {
        var extern := ParseOneCharToken('Y');
        ok := ParseBareFunctionType();
        if ok {
          ok := ParseOneCharToken('E');
          if ok {
            return;
          }
        }
      }
      Restore(copy, a);
    }

    method ParseBareFunctionType() returns (ok: bool)
      requires Valid()
      modifies this, out
      ensures Valid() && Follows(text, old(now), now, BareFunctionType(text, old(now).c), ok)
      decreases |text| - now.c.pos, 9
    {
      hide Valid, Saved, Frozen, Clean, Flat, TypePlus;
      Reflect();
      var copy := Current();
      ghost var a := now;
      DisableAppend();
      ok := OneOrMoreTypes();
      if ok {
        RestoreAppend(copy.append);
        MaybeAppend("()");
      } else {
        Restore(copy, a);
      }
    }

    method ParseBoundedArray() returns (ok: bool)
      requires Valid()
      modifies this, out
      ensures Valid() && Follows(text, old(now), now, BoundedArray(text, old(now).c), ok)
      decreases |text| - now.c.pos, 0
    {
      hide Valid, Saved, Frozen, Clean, Flat, Number, Type;
      Reflect();
      var copy := Current();
      ghost var a := now;
      ok := ParseOneCharToken('A');
      if ok {
        var number;
        ok, number := ParseNumber();
        if ok {
          ok := ParseOneCharToken('_');
          if ok {
            ok := ParseType();
            if ok { return; }
          }
        }
      }
      Restore(copy, a);
    }

    method ParseArrayType() returns (ok: bool)
      requires Valid()
      modifies this, out
      ensures Valid() && Follows(text, old(now), now, ArrayType(text, old(now).c), ok)
      decreases |text| - now.c.pos, 1
    {
      hide Valid, Saved, Frozen, Clean, Flat, BoundedArray, Expression, Type;
      Reflect();
      ok := ParseBoundedArray();
      if ok { return; }
      Reflect();
      var copy := Current();
      ghost var a := now;
      ok := ParseOneCharToken('A');
      if ok {
        var sized := ParseExpression();
        ok := ParseOneCharToken('_');
        if ok {
          ok := ParseType();
          if ok {
            return;
          }
        }
      }
      Restore(copy, a);
    }

    method ParsePointerToMemberType() returns (ok: bool)
      requires Valid()
      modifies this, out
      ensures Valid() && Follows(text, old(now), now, PointerToMemberType(text, old(now).c), ok)
      decreases |text| - now.c.pos, 0
    {
      hide Valid, Saved, Frozen, Clean, Flat, Type;
      Reflect();
      var copy := Current();
      ghost var a := now;
      ok := ParseOneCharToken('M');
      if ok {
        ok := ParseType();
        if ok {
          ok := ParseType();
          if ok {
            return;
          }
        }
      }
      Restore(copy, a);
    }

    method ParseTemplateArgs() returns (ok: bool)
      requires Valid()
      modifies this, out
      ensures Valid() && Follows(text, old(now), now, TemplateArgs(text, old(now).c), ok)
      decreases |text| - now.c.pos, 0
    {
      hide Valid, Saved, Frozen, Clean, Flat, TemplateArgPlus;
      Reflect();
      var copy := Current();
      ghost var a := now;
      DisableAppend();
      ok := ParseOneCharToken('I');
      if ok {
        ok := OneOrMoreTemplateArgs();
        if ok {
          ok := ParseOneCharToken('E');
          if ok {
            RestoreAppend(copy.append);
            MaybeAppend("<>");
            return;
          }
        }
      }
      Restore(copy, a);
    }

    method ParseTemplateArg() returns (ok: bool)
      requires Valid()
      modifies this, out
      ensures Valid() && Follows(text, old(now), now, TemplateArg(text, old(now).c), ok)
      decreases |text| - now.c.pos, 8
    {
      hide Valid, Saved, Frozen, Clean, Flat, ArgPack, Type, ExprPrimary, ArgExpression;
      Reflect();
      if argLevel > MAX_LEVELS {
        return false;
      }
      SetLevels(localLevel, exprLevel, argLevel + 1);
      ok := ParseArgPack();
      if !ok {
        ok := ParseType();
      }
      if !ok {
        ok := ParseExprPrimary();
      }
      if !ok {
        ok := ParseArgExpression();
      }
      if ok {
        Reflect();
        SetLevels(localLevel, exprLevel, argLevel - 1);
      }
    }

    method ParseArgPack() returns (ok: bool)
      requires Valid()
      modifies this, out
      ensures Valid() && Follows(text, old(now), now, ArgPack(text, old(now).c), ok)
      decreases |text| - now.c.pos, 0
    {
      hide Valid, Saved, Frozen, Clean, Flat, TemplateArgStar;
      Reflect();
      var copy := Current();
      ghost var a := now;
      ok := ParseOneCharToken('I');
      if !ok {
        ok := ParseOneCharToken('J');
      }
      if ok {
        ZeroOrMoreTemplateArgs();
        ok := ParseOneCharToken('E');
        if ok { return; }
      }
      Restore(copy, a);
    }

    method ParseArgExpression() returns (ok: bool)
      requires Valid()
      modifies this, out
      ensures Valid() && Follows(text, old(now), now, ArgExpression(text, old(now).c), ok)
      decreases |text| - now.c.pos, 0
    {
      hide Valid, Saved, Frozen, Clean, Flat, Expression;
      Reflect();
      var copy := Current();
      ghost var a := now;
      ok := ParseOneCharToken('X');
      if ok {
        ok := ParseExpression();
        if ok {
          ok := ParseOneCharToken('E');
          if ok {
            return;
          }
        }
      }
      Restore(copy, a);
    }

    /** An operator and "n" operands. */
    method ParseOperation(n: nat) returns (ok: bool)
      requires Valid()
      modifies this, out
      ensures Valid() && Follows(text, old(now), now, Operation(text, old(now).c, n), ok)
      decreases |text| - now.c.pos, 2
    {
      hide Valid, Saved, Frozen, Clean, Flat, OperatorName, Operands;
      Reflect();
      var copy := Current();
      ghost var a := now;
      ok := ParseOperatorName();
      if ok {
        ok := ParseOperands(n);
        if ok { return; }
      }
      Restore(copy, a);
    }

    method ParseSizeofType() returns (ok: bool)
      requires Valid()
      modifies this, out
      ensures Valid() && Follows(text, old(now), now, SizeofType(text, old(now).c), ok)
      decreases |text| - now.c.pos, 0
    {
      hide Valid, Saved, Frozen, Clean, Flat, Type;
      Reflect();
      var copy := Current();
      ghost var a := now;
      ok := ParseTwoCharToken('s', 't');
      if ok {
        ok := ParseType();
        if ok {
          return;
        }
      }
      Restore(copy, a);
    }

    method ParseScopeName(args: bool) returns (ok: bool)
      requires Valid()
      modifies this, out
      ensures Valid() && Follows(text, old(now), now, ScopeName(text, old(now).c, args), ok)
      decreases |text| - now.c.pos, 0
    {
      hide Valid, Saved, Frozen, Clean, Flat, Type, UnqualifiedName, TemplateArgs;
      Reflect();
      var copy := Current();
      ghost var a := now;
      ok := ParseTwoCharToken('s', 'r');
      if ok {
        ok := ParseType();
        if ok {
          ok := ParseUnqualifiedName();
          if ok && args {
            ok := ParseTemplateArgs();
          }
          if ok { return; }
        }
      }
      Restore(copy, a);
    }

    /** The "st" alternative is the one that does not step the counter back. */
    method ParseExpression() returns (ok: bool)
      requires Valid()
      modifies this, out
      ensures Valid() && Follows(text, old(now), now, Expression(text, old(now).c), ok)
      decreases |text| - now.c.pos, 4
    {
      hide Valid, Saved, Frozen, Clean, Flat, Exec, TemplateParam, ExprPrimary, Operations, SizeofType, UnresolvedName;
      Reflect();
      ok := ParseTemplateParam();
      if ok { return; }
      ok := ParseExprPrimary();
      if ok { return; }
      Reflect();
      if exprLevel > MAX_LEVELS {
        return false;
      }
      SetLevels(localLevel, exprLevel + 1, argLevel);
      ok := ParseOperations();
      if !ok {
        ok := ParseSizeofType();
        if ok { return; }
        ok := ParseUnresolvedName();
      }
      if ok {
        Reflect();
        SetLevels(localLevel, exprLevel - 1, argLevel);
      }
    }

    method ParseUnresolvedName() returns (ok: bool)
      requires Valid()
      modifies this, out
      ensures Valid() && Follows(text, old(now), now, UnresolvedName(text, old(now).c), ok)
      decreases |text| - now.c.pos, 1
    {
      hide Valid, Saved, Frozen, Clean, Flat, ScopeName;
      Reflect();
      ok := ParseScopeName(true);
      if ok { return; }
      ok := ParseScopeName(false);
    }

    method ParseOperations() returns (ok: bool)
      requires Valid()
      modifies this, out
      ensures Valid() && Follows(text, old(now), now, Operations(text, old(now).c), ok)
      decreases |text| - now.c.pos, 3
    {
      hide Valid, Saved, Frozen, Clean, Flat, Operation;
      Reflect();
      ok := ParseOperation(3);
      if ok { return; }
      ok := ParseOperation(2);
      if ok { return; }
      ok := ParseOperation(1);
    }

    method ParseLiteralValue(float: bool) returns (ok: bool)
      requires Valid()
      modifies `cur, `now
      ensures var r := LiteralValue(text, old(now).c, float);
              ok == r.ok && Valid() && MovedTo(text, old(now), now, r.c)
    {
      hide Valid, RunEnd, Number;
      Reflect();
      if float {
        ok := ParseFloatNumber();
      } else {
        var number;
        ok, number := ParseNumber();
      }
    }

    method ParseLiteral(float: bool) returns (ok: bool)
      requires Valid()
      modifies this, out
      ensures Valid() && Follows(text, old(now), now, Literal(text, old(now).c, float), ok)
      decreases |text| - now.c.pos, 0
    {
      hide Valid, Saved, Frozen, Clean, Flat, Out.Print, Is, Type, LiteralValue;
      Reflect();
      var copy := Current();
      ghost var a := now;
      ok := ParseOneCharToken('L');
      if ok {
        ok := ParseType();
        if ok {
          ok := ParseLiteralValue(float);
          if ok {
            ok := ParseOneCharToken('E');
            if ok { return; }
          }
        }
      }
      Restore(copy, a);
    }

    method ParseLiteralName() returns (ok: bool)
      requires Valid()
      modifies this, out
      ensures Valid() && Follows(text, old(now), now, LiteralName(text, old(now).c), ok)
      decreases |text| - now.c.pos, 0
    {
      hide Valid, Saved, Frozen, Clean, Flat, MangledName;
      Reflect();
      var copy := Current();
      ghost var a := now;
      ok := ParseOneCharToken('L');
      if ok {
        ok := ParseMangledName();
        if ok {
          ok := ParseOneCharToken('E');
          if ok {
            return;
          }
        }
      }
      Restore(copy, a);
    }

    method ParseLiteralEncoding() returns (ok: bool)
      requires Valid()
      modifies this, out
      ensures Valid() && Follows(text, old(now), now, LiteralEncoding(text, old(now).c), ok)
      decreases |text| - now.c.pos, 0
    {
      hide Valid, Saved, Frozen, Clean, Flat, Encoding;
      Reflect();
      var copy := Current();
      ghost var a := now;
      ok := ParseTwoCharToken('L', 'Z');
      if ok {
        ok := ParseEncoding();
        if ok {
          ok := ParseOneCharToken('E');
          if ok {
            return;
          }
        }
      }
      Restore(copy, a);
    }

    method ParseExprPrimary() returns (ok: bool)
      requires Valid()
      modifies this, out
      ensures Valid() && Follows(text, old(now), now, ExprPrimary(text, old(now).c), ok)
      decreases |text| - now.c.pos, 1
    {
      hide Valid, Saved, Frozen, Clean, Flat, Literal, LiteralName, LiteralEncoding;
      Reflect();
      ok := ParseLiteral(false);
      if ok { return; }
      ok := ParseLiteral(true);
      if ok { return; }
      ok := ParseLiteralName();
      if ok { return; }
      ok := ParseLiteralEncoding();
    }

    method ParseLocalEntity() returns (ok: bool)
      requires Valid()
      modifies this, out
      ensures Valid() && Follows(text, old(now), now, LocalEntity(text, old(now).c), ok)
      decreases |text| - now.c.pos, 0
    {
      hide Valid, Saved, Frozen, Clean, Flat, Out.Print, Is, Encoding, Name, Discriminator;
      Reflect();
      var copy := Current();
      ghost var a := now;
      ok := ParseOneCharToken('Z');
      if ok {
        ok := ParseEncoding();
        if ok {
          ok := ParseOneCharToken('E');
          if ok {
            MaybeAppend("::");
            ok := ParseName();
            if ok {
              var numbered := ParseDiscriminator();
              return;
            }
          }
        }
      }
      Restore(copy, a);
    }

    method ParseLocalString() returns (ok: bool)
      requires Valid()
      modifies this, out
      ensures Valid() && Follows(text, old(now), now, LocalString(text, old(now).c), ok)
      decreases |text| - now.c.pos, 0
    {
      hide Valid, Saved, Frozen, Clean, Flat, Encoding, Discriminator;
      Reflect();
      var copy := Current();
      ghost var a := now;
      ok := ParseOneCharToken('Z');
      if ok {
        ok := ParseEncoding();
        if ok {
          ok := ParseTwoCharToken('E', 's');
          if ok {
            var numbered := ParseDiscriminator();
            return;
          }
        }
      }
      Restore(copy, a);
    }

    method ParseLocalName() returns (ok: bool)
      requires Valid()
      modifies this, out
      ensures Valid() && Follows(text, old(now), now, LocalName(text, old(now).c), ok)
      decreases |text| - now.c.pos, 1
    {
      hide Valid, Saved, Frozen, Clean, Flat, LocalEntity, LocalString;
      Reflect();
      if localLevel > MAX_LEVELS {
        return false;
      }
      SetLevels(localLevel + 1, exprLevel, argLevel);
      ok := ParseLocalEntity();
      if !ok {
        ok := ParseLocalString();
      }
      if ok {
        Reflect();
        SetLevels(localLevel - 1, exprLevel, argLevel);
      }
    }

    method OneOrMoreTypes() returns (ok: bool)
      requires Valid()
      modifies this, out
      ensures Valid() && Follows(text, old(now), now, TypePlus(text, old(now).c), ok)
      decreases |text| - now.c.pos, 8
    {
      hide Valid, Saved, Frozen, Clean, Flat, Type;
      Reflect();
      ghost var a := now;
      ok := ParseType();
      if ok {
        ghost var b, all := now, TypeStar(text, now.c);
        var more := true;
        while more
          invariant Valid() && Good(text, now.c)
          invariant now.o.append == a.o.append && now.o.nest == a.o.nest && now.c.pos >= b.c.pos
          invariant var rest := if more then TypeStar(text, now.c) else Pass(now.c);
                    all.c == rest.c && Exec(all.tr, b.o) == Exec(rest.tr, now.o)
          decreases |text| - now.c.pos, more
        {
          more := ParseType();
        }
      }
    }

    method OneOrMoreTemplateArgs() returns (ok: bool)
      requires Valid()
      modifies this, out
      ensures Valid() && Follows(text, old(now), now, TemplateArgPlus(text, old(now).c), ok)
      decreases |text| - now.c.pos, 10
    {
      hide Valid, Saved, Frozen, Clean, Flat, TemplateArg;
      Reflect();
      ghost var a := now;
      ok := ParseTemplateArg();
      if ok {
        ghost var b, all := now, TemplateArgStar(text, now.c);
        var more := true;
        while more
          invariant Valid() && Good(text, now.c)
          invariant now.o.append == a.o.append && now.o.nest == a.o.nest && now.c.pos >= b.c.pos
          invariant var rest := if more then TemplateArgStar(text, now.c) else Pass(now.c);
                    all.c == rest.c && Exec(all.tr, b.o) == Exec(rest.tr, now.o)
          decreases |text| - now.c.pos, more
        {
          more := ParseTemplateArg();
        }
      }
    }

    method ZeroOrMoreTemplateArgs()
      requires Valid()
      modifies this, out
      ensures Valid() && Follows(text, old(now), now, TemplateArgStar(text, old(now).c), true)
      decreases |text| - now.c.pos, 9
    {
      hide Valid, Saved, Frozen, Clean, Flat, TemplateArg;
      Reflect();
      ghost var a, all := now, TemplateArgStar(text, now.c);
      var more := true;
      while more
        invariant Valid() && Good(text, now.c)
        invariant now.o.append == a.o.append && now.o.nest == a.o.nest && now.c.pos >= a.c.pos
        invariant var rest := if more then TemplateArgStar(text, now.c) else Pass(now.c);
                  all.c == rest.c && Exec(all.tr, a.o) == Exec(rest.tr, now.o)
        decreases |text| - now.c.pos, more
      {
        more := ParseTemplateArg();
      }
    }

    /** "n" expressions in a row. */
    method ParseOperands(n: nat) returns (ok: bool)
      requires Valid()
      modifies this, out
      ensures var r := Operands(text, old(now).c, n);
              && Valid() && Good(text, r.c)
              && ok == r.ok && now.c == r.c && now.o == Exec(r.tr, old(now).o)
              && now.o.nest == old(now).o.nest && now.o.append == old(now).o.append
      decreases |text| - now.c.pos, 5, n
    {
      hide Valid, Saved, Frozen, Clean, Flat, Expression;
      Reflect();
      ok := true;
      if n > 0 {
        ok := ParseOperands(n - 1);
        if ok {
          ok := ParseExpression();
        }
      }
    }

    // ---------------------------------------------------------------- the whole name

    lemma SuffixStep(p: nat)
      requires p < |text|
      ensures CloneSuffix(text, p) ==
                (text[p] == '\0' || (CloneGroup(text, p) > p && CloneSuffix(text, CloneGroup(text, p))))
    {
    }

    method IsFunctionCloneSuffix() returns (b: bool)
      requires Valid()
      ensures b == CloneSuffix(text, now.c.pos)
    {
      hide Valid, CloneSuffix;
      Reflect();
      var i := cur;
      while text[i] != '\0'
        invariant i < |text| && CloneSuffix(text, cur) == CloneSuffix(text, i)
        decreases |text| - i
      {
        SuffixStep(i);
        if text[i] != '.' || !IsAlpha(text[i + 1]) {
          return false;
        }
        ghost var start := i;
        i := SkipRun(i + 2, IsAlpha);
        if text[i] != '.' || !IsDigit(text[i + 1]) {
          return false;
        }
        i := SkipRun(i + 2, IsDigit);
        assert i == CloneGroup(text, start);
      }
      SuffixStep(i);
      return true;
    }

    method ParseTopLevelMangledName() returns (ok: bool)
      requires Valid() && now.c == ENTRY
      modifies this, out
      ensures Valid() && ok == TopLevel(text).ok && now.o == Exec(TopLevel(text).tr, old(now).o)
    {
      hide Valid, Saved, Frozen, Clean, Flat, MangledName, CloneSuffix;
      Reflect();
      ok := ParseMangledName();
      if ok {
        Reflect();
        if text[cur] != '\0' {
          var clone := IsFunctionCloneSuffix();
          if clone {
            return true;
          }
          if text[cur] == '@' {
            MaybeAppend(text[cur..|text| - 1]);
            return true;
          }
          return false;
        }
      }
    }
  }

  /**
   * For every name, every buffer and whatever lies in memory behind it: the answer is "the recogniser accepts
   * and the buffer has not overflowed in the end", and every byte of the buffer is as the run of the trace leaves it.
   * So a text that does not fit is refused, even after attempts that were clipped and abandoned; and when nothing at
   * all was clipped, the buffer shows the ideal text and nothing behind it was read. For a name of n characters, its
   * terminator included, more than n * (n + 41) bytes are always enough for that. In such a buffer every C++ name that
   * the terms of Mangling build is demangled to how it is to be shown.
   */
  method Demangle(mangled: CString, out: array<char>, behind: nat -> char) returns (ok: bool)
    modifies out
    ensures var o := Exec(TopLevel(mangled).tr, Start(old(out[..]), behind));
            && ok == (TopLevel(mangled).ok && !o.tape.overflowed) && out[..] == o.tape.bytes
            && (ok ==> (o.plain == 0 || o.plain < out.Length) && o.plain <= |o.text| <= 2 * o.plain)
            && (ok && o.sealed ==> o.plain <= o.tape.cur && Ended(o.tape))
            && (!Clipped(o) ==> ok == TopLevel(mangled).ok && Shows(o))
            && (out.Length > |mangled| * (|mangled| + 41) ==> !Clipped(o))
    ensures out.Length > |mangled| * (|mangled| + 41) ==>
              forall s: M.Symbol, tail: string :: MangledSymbols.IsMangled(mangled, s, tail) ==>
                ok && MangledSymbols.Holds(out[..], MangledSymbols.Shown(s, tail))
  {
    hide TopLevel, Exec, MangledSymbols.IsMangled, MangledSymbols.Holds;
    ghost var before := out[..];
    forall s: M.Symbol, tail: string
      | out.Length > |mangled| * (|mangled| + 41) && MangledSymbols.IsMangled(mangled, s, tail)
      ensures TopLevel(mangled).ok && !Exec(TopLevel(mangled).tr, Start(before, behind)).tape.overflowed
      ensures MangledSymbols.Holds(Exec(TopLevel(mangled).tr, Start(before, behind)).tape.bytes, MangledSymbols.Shown(s, tail))
    {
      MangledSymbols.MangledIsShown(mangled, s, tail, before, behind);
    }
    OverflowIsSeen(TopLevel(mangled).tr, out[..], behind);
    PlainIsMost(TopLevel(mangled).tr, Start(out[..], behind));
    if out.Length > |mangled| * (|mangled| + 41) { RoomIsEnough(mangled, out[..], behind); }
    if !Clipped(Exec(TopLevel(mangled).tr, Start(out[..], behind))) {
      UnclippedShows(TopLevel(mangled).tr, out[..], behind);
    }
    var state := new State(mangled, out, behind);
    var parsed := state.ParseTopLevelMangledName();
    ok := parsed && !state.overflowed;
  }
}

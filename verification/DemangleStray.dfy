/** A name on which the demangler reads memory behind its buffer, and what that memory can do. */
module DemangleStray {
  import opened CText
  import opened Tape
  import opened Output
  import opened Recogniser
  import opened Faithful
  import opened DemangleCases

  // ---------------------------------------------------------------- reads behind the buffer

  lemma {:induction false} CopyStray(t: Tape, src: Pointer, i: nat, n: nat)
    requires i <= n && (src.Bytes? ==> n <= |src.s|) && t.stray
    ensures t.Copy(src, i, n).stray
    decreases n - i
  {
    if i < n && t.cur + 1 < |t.bytes| { CopyStray(Step(t, src, i), src, i + 1, n); }
  }

  lemma PrintStray(t: Tape, src: Pointer, n: nat)
    requires 0 < n && (src.Bytes? ==> n <= |src.s|) && t.stray
    ensures t.Print(src, n).stray
  {
    hide Tape.Copy, Tape.Read;
    CopyStray(t, Bytes(" "), 0, 1);
    var first := t.Read(src, 0);
    assert t.(stray := true) == t;
    CopyStray(t.KeepApart(first).Remember(first, n), src, 0, n);
  }

  /** A read behind the buffer is never forgotten, however the parse goes on. */
  lemma {:induction false} StrayStays(tr: Trace, o: Out)
    requires o.tape.stray
    ensures Exec(tr, o).tape.stray
  {
    hide Tape.Print;
    match tr
    case Emit(str) => if str != "" { PrintStray(o.tape, Bytes(str), |str|); }
    case EmitPrev => if o.tape.len > 0 { PrintStray(o.tape, Buffer(o.tape.name), o.tape.len); }
    case Separator => PrintStray(o.tape, Bytes("::"), 2);
    case Retracted(b) =>
      PrintStray(o.tape, Bytes("::"), 2);
      StrayStays(b, o.Separate());
    case Both(a, b) =>
      StrayStays(a, o);
      StrayStays(b, Exec(a, o));
    case Attempt(b) => StrayStays(b, o);
    case Muted(b) => StrayStays(b, o.(append := false));
    case Nested(b) => StrayStays(b, o.(nest := 0));
    case _ =>
  }

  // ---------------------------------------------------------------- what lies behind it

  function With(t: Tape, behind: nat -> char): Tape { t.(behind := behind) }

  lemma {:induction false} CopyWith(t: Tape, src: Pointer, i: nat, n: nat, h: nat -> char)
    requires i <= n && (src.Bytes? ==> n <= |src.s|) && !t.Copy(src, i, n).stray
    ensures With(t, h).Copy(src, i, n) == With(t.Copy(src, i, n), h)
    decreases n - i
  {
    if i < n && t.cur + 1 < |t.bytes| {
      if Step(t, src, i).stray { CopyStray(Step(t, src, i), src, i + 1, n); }
      assert With(t, h).Read(src, i) == t.Read(src, i);
      CopyWith(Step(t, src, i), src, i + 1, n, h);
    }
  }

  lemma PrintWith(t: Tape, src: Pointer, n: nat, h: nat -> char)
    requires 0 < n && (src.Bytes? ==> n <= |src.s|) && !t.Print(src, n).stray
    ensures With(t, h).Print(src, n) == With(t.Print(src, n), h)
  {
    hide Tape.Copy;
    var first := t.Read(src, 0);
    var a := t.(stray := t.stray || t.Outside(src, 0));
    var b := a.KeepApart(first).Remember(first, n);
    if b.stray { CopyStray(b, src, 0, n); }
    if a.stray { CopyStray(a, Bytes(" "), 0, 1); }
    if first == '<' && 0 < t.cur <= |t.bytes| && t.bytes[t.cur - 1] == '<' { CopyWith(a, Bytes(" "), 0, 1, h); }
    CopyWith(b, src, 0, n, h);
  }

  function Behind(o: Out, h: nat -> char): Out { o.(tape := With(o.tape, h)) }

  lemma PrintBehind(o: Out, str: string, h: nat -> char)
    ensures !o.Print(str).tape.stray ==> Behind(o, h).Print(str) == Behind(o.Print(str), h)
    ensures !o.PrintPrev().tape.stray ==> Behind(o, h).PrintPrev() == Behind(o.PrintPrev(), h)
  {
    hide Tape.Print;
    if o.append && str != "" && !o.Print(str).tape.stray { PrintWith(o.tape, Bytes(str), |str|, h); }
    if o.append && o.tape.len > 0 && !o.PrintPrev().tape.stray { PrintWith(o.tape, Buffer(o.tape.name), o.tape.len, h); }
  }

  /** A run that reads nothing behind the buffer goes the same whatever is there. */
  lemma {:induction false} MemoryBehindIsIrrelevant(tr: Trace, o: Out, h: nat -> char)
    requires !Exec(tr, o).tape.stray
    ensures Exec(tr, Behind(o, h)) == Behind(Exec(tr, o), h)
  {
    hide Out.Print, Out.PrintPrev;
    match tr
    case Emit(str) => PrintBehind(o, str, h);
    case EmitPrev => PrintBehind(o, "", h);
    case Separator => PrintBehind(o, "::", h);
    case Retracted(b) =>
      if o.Separate().tape.stray { StrayStays(b, o.Separate()); }
      PrintBehind(o, "::", h);
      MemoryBehindIsIrrelevant(b, o.Separate(), h);
    case Both(a, b) =>
      if Exec(a, o).tape.stray { StrayStays(b, Exec(a, o)); }
      MemoryBehindIsIrrelevant(a, o, h);
      MemoryBehindIsIrrelevant(b, Exec(a, o), h);
    case Attempt(b) => MemoryBehindIsIrrelevant(b, o, h);
    case Muted(b) => MemoryBehindIsIrrelevant(b, o.(append := false), h);
    case Nested(b) => MemoryBehindIsIrrelevant(b, o.(nest := 0), h);
    case _ =>
  }

  // ---------------------------------------------------------------- "_ZTVMN3fooC1EC1" into three bytes

  /** "_ZTVMN3fooC1EC1": the virtual table of a pointer to a member of foo::foo, which is again foo. */
  predicate IsStray(t: CString) {
    && |t| == 16 && t[0] == '_' && t[1] == 'Z' && t[2] == 'T' && t[3] == 'V' && t[4] == 'M' && t[5] == 'N'
    && t[6] == '3' && t[7] == 'f' && t[8] == 'o' && t[9] == 'o' && t[10] == 'C' && t[11] == '1' && t[12] == 'E'
    && t[13] == 'C' && t[14] == '1' && t[15] == '\0'
  }

  lemma UnscopedIsCtor(t: CString, c: Core, o: Out)
    requires Good(t, c) && c.pos + 2 < |t| && t[c.pos] == 'C' && t[c.pos + 1] == '1'
    ensures var u := UnscopedName(t, c); u.ok && u.c == c.Skip(2) && Exec(u.tr, o) == o.PrintPrev()
  {
    hide OperatorName, Out.PrintPrev;
    OperatorDud(t, c);
    SilentRun(OperatorName(t, c).tr, o);
    assert UnqualifiedName(t, c) == OperatorName(t, c).Then(CtorName(t, c));
  }

  lemma PartIsUnscoped(t: CString, c: Core, o: Out)
    requires Good(t, c) && t[c.pos] != 'T' && t[c.pos] != 'S' && UnscopedName(t, c).ok
    ensures var p, u := PrefixPart(t, c), UnscopedName(t, c);
            p.ok && p.c == u.c && Exec(p.tr, o) == Exec(u.tr, o)
  {
    hide TemplateParam, Substitution, UnscopedName, Exec;
    TemplateOrSubstitutionDud(t, c);
    var b := TemplateParam(t, c).Then(Substitution(t, c));
    assert Silent(b.tr);
    SilentRun(b.tr, o);
  }

  lemma Foo(t: CString, c: Core)
    requires IsStray(t) && Good(t, c) && c.pos == 6
    ensures SourceName(t, c).ok && SourceName(t, c).c == c.Skip(4) && SourceName(t, c).tr == Emit("foo")
  {
    assert RunEnd(t, 6, IsDigit) == 7;
    assert t[6..7] == "3" && Decimal("3") == 3;
    assert t[7..10] == "foo";
  }

  /** What "foo", "C1" and the end of the nested name print. */
  function NestedRun(o: Out): Out {
    var foo := o.(nest := 0).Print("foo").Descend();
    var ctor := foo.Separate().PrintPrev().Descend();
    ctor.Separate().Cancel().(nest := o.nest)
  }

  lemma LastPart(t: CString, c: Core, o: Out)
    requires IsStray(t) && Good(t, c) && c.pos == 12
    ensures Prefix(t, c, true).c == c && Exec(Prefix(t, c, true).tr, o) == o.Separate().Cancel()
  {
    hide Prefix, PrefixPart, TemplateArgs, Out.Separate, Out.Cancel;
    NothingStarts(t, c);
    TemplateOrSubstitutionDud(t, c);
    SilentRun(PrefixPart(t, c).tr, o.Separate());
    SilentRun(TemplateArgs(t, c).tr, o.Separate().Cancel());
    PrefixTurn(t, c, true, o);
  }

  lemma StrayNested(t: CString, c: Core, o: Out)
    requires IsStray(t) && Good(t, c) && c.pos == 5
    ensures var r := NestedName(t, c); r.ok && r.c == c.Skip(8) && Exec(r.tr, o) == NestedRun(o)
  {
    hide SourceName, UnscopedName, PrefixPart, Prefix, Exec;
    hide Out.Separate, Out.PrintPrev, Out.Print, Out.Cancel, Out.Descend;
    var i, c6, c10, c12 := o.(nest := 0), c.Skip(1), c.Skip(5), c.Skip(7);
    Foo(t, c6);
    SeparateNeeds(i);
    UnscopedIsSource(t, c6, i);
    PartIsUnscoped(t, c6, i);
    EmitRun("foo", i);
    var foo := i.Print("foo").Descend();
    PrefixTurn(t, c6, false, i);
    UnscopedIsCtor(t, c10, foo.Separate());
    PartIsUnscoped(t, c10, foo.Separate());
    var ctor := foo.Separate().PrintPrev().Descend();
    PrefixTurn(t, c10, true, foo);
    LastPart(t, c12, ctor);
    assert NestedName(t, c) == Prefix(t, c6, false).Nest().Eat(1);
  }

  /** The member's class: the nested name, read as a type. */
  lemma StrayClass(t: CString, c: Core, o: Out)
    requires IsStray(t) && Good(t, c) && c.pos == 5
    ensures var r := Type(t, c); r.ok && r.c == c.Skip(8) && Exec(r.tr, o) == NestedRun(o)
  {
    hide Type, NestedName, Exec, PrefixDuds, NestedRun;
    StrayNested(t, c, o);
    TypePrefixDud(t, c);
    assert Name(t, c) == NestedName(t, c);
    TypeIsName(t, c, o);
  }

  /** A length that reaches past the end is no name, so 'C' starts no complex type. */
  lemma NoTypeAtLast(t: CString, c: Core)
    requires IsStray(t) && Good(t, c) && c.pos == 14
    ensures Dud(Type(t, c), c)
  {
    hide Type, Name, PrefixDuds, NoUnqualified;
    forall d | Good(t, d) && d.pos == 14 ensures NoUnqualified(t, d) { NoUnqualifiedAtLast(t, d); }
    NameMisses(t, c);
    TypePrefixDud(t, c);
    TypeDud(t, c);
  }

  lemma NoUnqualifiedAtLast(t: CString, c: Core)
    requires IsStray(t) && Good(t, c) && c.pos == 14
    ensures NoUnqualified(t, c)
  {
    hide OperatorName, CtorDtorName;
    OperatorDud(t, c);
    CtorDtorDud(t, c);
    assert RunEnd(t, 14, IsDigit) == 15;
    assert t[14..15] == "1" && Decimal("1") == 1;
  }

  lemma PointerDud(t: CString, c: Core)
    requires IsStray(t) && Good(t, c) && c.pos == 13
    ensures PrefixDuds(t, c)
  {
    hide Type, SourceName, BareFunctionType, Expression, Lookup;
    NoBuiltin('C', 0);
    NoTypeAtLast(t, c.Skip(1));
  }

  /** The member's type: the constructor's name once more. */
  lemma StrayMember(t: CString, c: Core, o: Out)
    requires IsStray(t) && Good(t, c) && c.pos == 13
    ensures Type(t, c).ok && Type(t, c).c.pos == 15 && Exec(Type(t, c).tr, o) == o.PrintPrev().Rollback(o).PrintPrev()
  {
    hide Type, Name, UnscopedName, LocalName, Exec, PrefixDuds, Out.PrintPrev, Out.Rollback;
    PointerDud(t, c);
    LocalMisses(t, c);
    var d := LocalName(t, c).c;
    UnscopedIsCtor(t, d, o);
    UnscopedIsCtor(t, d, o.PrintPrev().Rollback(o));
    NameIsUnscoped(t, c, o);
    TypeIsName(t, c, o);
  }

  /** The pointer to member: what both types print. */
  function MemberRun(o: Out): Out {
    var n := NestedRun(o);
    n.PrintPrev().Rollback(n).PrintPrev()
  }

  lemma NoNameHere(t: CString, c: Core)
    requires Good(t, c) && (t[c.pos] == 'M' || t[c.pos] == 'T')
    ensures Misses(Name(t, c), c)
  {
    hide Name, NoUnqualified;
    forall d | Good(t, d) && d.pos == c.pos ensures NoUnqualified(t, d) { NothingUnqualified(t, d); }
    NameMisses(t, c);
  }

  lemma NothingUnqualified(t: CString, c: Core)
    requires Good(t, c) && (t[c.pos] == 'M' || t[c.pos] == 'T')
    ensures NoUnqualified(t, c)
  {
    OperatorDud(t, c);
    CtorDtorDud(t, c);
    SourceDud(t, c);
  }

  lemma StrayPointer(t: CString, c: Core, o: Out)
    requires IsStray(t) && Good(t, c) && c.pos == 4
    ensures Type(t, c).ok && Type(t, c).c.pos == 15 && Exec(Type(t, c).tr, o) == MemberRun(o)
  {
    hide Name, Type, Exec, BuiltinType, FunctionType, ArrayType, PrefixDuds, NestedRun, Out.PrintPrev, Out.Rollback;
    TypePrefixDud(t, c);
    NoNameHere(t, c);
    var d := Name(t, c).c;
    ArrayOrMemberDud(t, d);
    StrayClass(t, d.Skip(1), o);
    StrayMember(t, d.Skip(9), NestedRun(o));
    TypeIsMember(t, c, o);
  }

  lemma TypeIsMember(t: CString, c: Core, o: Out)
    requires Good(t, c) && PrefixDuds(t, c) && Misses(Name(t, c), c) && t[c.pos] == 'M'
    requires PointerToMemberType(t, Name(t, c).c).ok
    ensures Type(t, c).ok && Type(t, c).c == PointerToMemberType(t, Name(t, c).c).c
    ensures Exec(Type(t, c).tr, o) == Exec(PointerToMemberType(t, Name(t, c).c).tr, o)
  {
    hide Name, QualifiedType, PointerType, PackExpansion, DeclType, VendorType, BuiltinType, FunctionType;
    hide ArrayType, PointerToMemberType, Exec, Silent;
    var d := Name(t, c).c;
    ArrayOrMemberDud(t, d);
    var e := BeforePlain(t, c);
    BeforePlainDud(t, c);
    var p := BuiltinType(t, c).Then(FunctionType(t, c));
    var q := p.Then(Name(t, c)).Then(ArrayType(t, d));
    ThenSilent(BuiltinType(t, c), FunctionType(t, c));
    ThenSilent(p, Name(t, c));
    ThenSilent(p.Then(Name(t, c)), ArrayType(t, d));
    SilentRun(e.tr, o);
    SilentRun(q.tr, o);
    assert PlainType(t, c) == q.Then(PointerToMemberType(t, d));
    assert Type(t, c) == e.Then(PlainType(t, c));
  }

  // ---------------------------------------------------------------- what it does to three bytes

  /** A buffer of three bytes with no room left in it. */
  predicate Full(t: Tape) { |t.bytes| == 3 && t.cur == 2 && t.overflowed && t.len == 3 }

  lemma FooClipped(t: Tape)
    requires |t.bytes| == 3 && t.cur == 0
    ensures var r := t.Print(Bytes("foo"), 3); Full(r) && r.name == 0 && r.bytes[0] == 'f'
  {
    var a := Step(t.(name := 0, len := 3), Bytes("foo"), 0);
    var b := Step(a, Bytes("foo"), 1);
    assert b.Copy(Bytes("foo"), 2, 3) == b.(overflowed := true);
    assert t.Remember('f', 3).Copy(Bytes("foo"), 0, 3) == b.(overflowed := true);
  }

  lemma FullStaysFull(t: Tape, src: Pointer, n: nat)
    requires Full(t) && 0 < n && (src.Bytes? ==> n <= |src.s|) && t.Read(src, 0) != '<' && !t.Outside(src, 0)
    ensures t.Print(src, n) == t.Remember(t.Read(src, 0), n)
  {
  }

  /** The name remembered at the last byte is copied to the front: its second character lies behind the buffer. */
  lemma LastByteStrays(t: Tape)
    requires |t.bytes| == 3 && t.cur == 0 && t.name == 2 && t.len == 3
    ensures t.Print(Buffer(2), 3).stray
  {
    hide Tape.Copy;
    var u := t.Remember(t.Read(Buffer(2), 0), 3);
    var b := Step(Step(u, Buffer(2), 0), Buffer(2), 1);
    CopyTwo(u, Buffer(2));
    CopyStray(b, Buffer(2), 2, 3);
  }

  lemma CopyTwo(t: Tape, src: Pointer)
    requires |t.bytes| == 3 && t.cur == 0 && src.Buffer?
    ensures t.Copy(src, 0, 3) == Step(Step(t, src, 0), src, 1).Copy(src, 2, 3)
  {
    assert t.Copy(src, 0, 3) == Step(t, src, 0).Copy(src, 1, 3);
  }

  /** After the nested name the cursor is back at the front, and the name is remembered at the last byte. */
  lemma NestedClips(o: Out)
    requires Fresh(o, 3)
    ensures var n := NestedRun(o); n.append && |n.tape.bytes| == 3 && n.tape.cur == 0 && n.tape.name == 2 && n.tape.len == 3
  {
    hide Tape.Print;
    var foo := o.(nest := 0).Print("foo").Descend();
    FooClipped(o.tape);
    FullStaysFull(foo.tape, Bytes("::"), 2);
    var sep := foo.Separate();
    FullStaysFull(sep.tape, Buffer(0), 3);
    var ctor := sep.PrintPrev().Descend();
    FullStaysFull(ctor.tape, Bytes("::"), 2);
  }

  lemma MemberStrays(o: Out)
    requires Fresh(o, 3)
    ensures MemberRun(o).tape.stray
  {
    hide NestedRun, Tape.Print;
    var n := NestedRun(o);
    NestedClips(o);
    LastByteStrays(n.tape);
    StrayStays(Both(EmitPrev, EmitPrev), n.PrintPrev());
    var back := n.PrintPrev().Rollback(n);
    if back.tape.len > 0 { PrintStray(back.tape, Buffer(back.tape.name), back.tape.len); }
  }

  lemma EncodingIsSpecial(t: CString, c: Core, o: Out)
    requires Good(t, c) && Misses(Name(t, c), c) && SpecialType(t, Name(t, c).c, "VTIS").ok
    ensures var e, s := Encoding(t, c), SpecialType(t, Name(t, c).c, "VTIS");
            e.ok && e.c == s.c && Exec(e.tr, o) == Exec(s.tr, o)
  {
    hide Name, SpecialType, Exec, Out.Rollback;
    var n := Name(t, c);
    var d := n.Undo(c).Then(n);
    assert Silent(d.tr);
    SilentRun(d.tr, o);
    assert Encoding(t, c) == d.Then(SpecialName(t, n.c));
    assert SpecialName(t, n.c) == SpecialType(t, n.c, "VTIS");
  }

  lemma Spelled(t: CString)
    requires t == "_ZTVMN3fooC1EC1\0"
    ensures IsStray(t)
  {
  }

  lemma StrayEncoding(t: CString, o: Out)
    requires IsStray(t)
    ensures TopLevel(t).ok && Exec(TopLevel(t).tr, o) == MemberRun(o)
  {
    hide Name, Type, Encoding, Exec, MemberRun;
    var c := ENTRY.Skip(2);
    NoNameHere(t, c);
    var d := Name(t, c).c;
    StrayPointer(t, d.Skip(2), o);
    assert SpecialType(t, d, "VTIS") == Type(t, d.Skip(2));
    EncodingIsSpecial(t, c, o);
    assert TopLevel(t) == Encoding(t, c);
  }

  /**
   * "_ZTVMN3fooC1EC1" is accepted by the grammar, and with a buffer of three bytes the demangler reads behind it,
   * whatever the bytes were.
   */
  lemma ReadsBehindTheBuffer(t: CString, bytes: string, behind: nat -> char)
    requires t == "_ZTVMN3fooC1EC1\0" && |bytes| == 3
    ensures TopLevel(t).ok && Exec(TopLevel(t).tr, Start(bytes, behind)).tape.stray
  {
    hide TopLevel, Exec, MemberRun, IsStray;
    Spelled(t);
    StrayEncoding(t, Start(bytes, behind));
    MemberStrays(Start(bytes, behind));
  }
}

/** How the grammar's alternatives and sequences read: what a nonterminal adds to the text when its parts add theirs. */
module DemangleReads {
  import opened CText
  import opened Tape
  import opened Output
  import opened Recogniser
  import opened DemangleCases
  import opened DemangleData

  // ---------------------------------------------------------------- what is added

  /** Wherever it is run with append on, "shown" comes behind the text, and a terminator behind that. */
  ghost predicate Adds(tr: Trace, shown: string) {
    forall o: Out {:trigger Exec(tr, o)} :: o.append ==>
      Exec(tr, o).text == o.text + shown && Exec(tr, o).append && Exec(tr, o).sealed
  }

  /** Stops at "p", with "q" lists of arguments counted. */
  predicate Reaches(t: CString, r: Res, p: nat, q: nat) { r.ok && Good(t, r.c) && r.c.pos == p && r.c.arg == q }

  ghost predicate Reads(t: CString, r: Res, p: nat, q: nat, shown: string) { Reaches(t, r, p, q) && Adds(r.tr, shown) }

  /** An attempt that failed leaves what follows as it would be. */
  lemma After(t: CString, a: Res, b: Res, p: nat, q: nat, shown: string)
    requires Frozen(a.tr) && Reads(t, b, p, q, shown)
    ensures Reads(t, a.Then(b), p, q, shown)
  {
    hide Frozen, Clean, Flat;
    forall o: Out | o.append ensures Exec(a.tr, o).append && Exec(a.tr, o).text == o.text {
      FrozenKeeps(a.tr, o);
      AppendKept(a.tr, o);
    }
  }

  lemma Joined(t: CString, a: Res, b: Res, pa: nat, qa: nat, first: string, p: nat, q: nat, second: string)
    requires Reads(t, a, pa, qa, first) && Reads(t, b, p, q, second)
    ensures Reads(t, a.Then(b), p, q, first + second)
  {
    hide Frozen, Clean, Flat;
    forall o: Out | o.append ensures Exec(b.tr, Exec(a.tr, o)).text == o.text + (first + second) {
      assert o.text + first + second == o.text + (first + second);
    }
  }

  lemma NestReads(t: CString, a: Res, p: nat, q: nat, shown: string)
    requires Reads(t, a, p, q, shown)
    ensures Reads(t, a.Nest(), p, q, shown)
  {
  }

  /** A text that does not begin with '<' is added as it is. */
  lemma EmitAdds(str: string)
    requires str != "" && str[0] != '<'
    ensures Adds(Emit(str), str)
  {
    hide Tape.Print;
    forall o: Out | o.append
      ensures Exec(Emit(str), o).text == o.text + str && Exec(Emit(str), o).append && Exec(Emit(str), o).sealed
    {
      assert o.text + "" + str == o.text + str;
    }
  }

  lemma EmitReads(t: CString, c: Core, str: string)
    requires Good(t, c) && str != "" && str[0] != '<'
    ensures Reads(t, Res(true, c, Emit(str)), c.pos, c.arg, str)
  {
    EmitAdds(str);
  }

  /** What is read with append off adds nothing, and one text comes in its place. */
  lemma MutedReads(t: CString, a: Res, p: nat, q: nat, str: string)
    requires Reaches(t, a, p, q) && str != "" && str[0] != '<'
    ensures Reads(t, a.Mute().Do(Emit(str)), p, q, str)
  {
    hide Tape.Print, Frozen, Clean, Flat;
    EmitAdds(str);
    forall o: Out | o.append
      ensures Exec(a.Mute().tr, o).text == o.text && Exec(a.Mute().tr, o).append
    {
      MutedKeeps(a.tr, o.(append := false));
    }
  }

  /** The same in the middle of a text. */
  lemma MutedBehind(t: CString, a: Res, b: Res, pa: nat, qa: nat, shown: string, p: nat, q: nat)
    requires Reads(t, a, pa, qa, shown) && Reaches(t, b, p, q)
    ensures Reads(t, a.Then(b.Mute()), p, q, shown)
  {
    hide Frozen, Clean, Flat;
    forall o: Out | o.append
      ensures var r := Exec(b.Mute().tr, o); r.text == o.text && r.append && r.sealed == o.sealed
    {
      MutedKeeps(b.tr, o.(append := false));
    }
  }

  /** What two characters '<' in a row are kept apart by. */
  function Marks(before: string, str: string): string
    requires before != "" && str != ""
  {
    (if str[0] == '<' && before[|before| - 1] == '<' then " " else "") + str
  }

  lemma PrintBehind(m: Out, text: string, before: string, str: string)
    requires m.append && before != "" && str != "" && m.text == text + before
    ensures var r := m.Print(str); r.text == text + (before + Marks(before, str)) && r.append && r.sealed
  {
    hide Tape.Print;
    var gap := if str[0] == '<' && before[|before| - 1] == '<' then " " else "";
    assert m.text[|m.text| - 1] == before[|before| - 1];
    assert m.Print(str).text == m.text + gap + str;
    assert text + before + gap + str == text + (before + (gap + str));
  }

  // ---------------------------------------------------------------- where nothing starts

  /** What stands there is the beginning of no name of one word. */
  predicate Nameless(t: CString, c: Core)
    requires Good(t, c)
  {
    && !IsLower(t[c.pos]) && !IsDigit(t[c.pos]) && t[c.pos] != 'C' && t[c.pos] != 'D'
    && (t[c.pos] == 'L' ==> !IsDigit(t[c.pos + 1]) && t[c.pos + 1] != 'n')
    && (t[c.pos] == 'S' ==> t[c.pos + 1] != 't')
  }

  lemma UnscopedFails(t: CString, c: Core)
    requires Good(t, c) && Nameless(t, c)
    ensures !UnscopedName(t, c).ok && UnscopedName(t, c).c == c
  {
    hide OperatorName, CtorDtorName, SourceName, Frozen, Clean, Flat, Silent;
    OperatorDud(t, c);
    CtorDtorDud(t, c);
    SourceDud(t, c);
    if t[c.pos] == 'L' { SourceDud(t, c.Skip(1)); }
  }

  lemma PartFails(t: CString, c: Core)
    requires Good(t, c) && Nameless(t, c) && t[c.pos] != 'S' && t[c.pos] != 'T'
    ensures !PrefixPart(t, c).ok && PrefixPart(t, c).c == c
  {
    hide TemplateParam, Substitution, UnscopedName, Nameless, Frozen, Clean, Flat, Silent;
    TemplateOrSubstitutionDud(t, c);
    UnscopedFails(t, c);
  }

  /** Where names that are not local are looked for: a failing local name leaves its level raised. */
  function Behind(t: CString, c: Core): (d: Core)
    requires Good(t, c) && t[c.pos] != 'Z'
    ensures Good(t, d) && d.pos == c.pos && d.arg == c.arg && d.local <= c.local + 1 && !LocalName(t, c).ok
  {
    hide Frozen, Clean, Flat, Silent;
    LocalMisses(t, c);
    LocalName(t, c).c
  }

  lemma NameFails(t: CString, c: Core)
    requires Good(t, c) && Nameless(t, c) && t[c.pos] != 'N' && t[c.pos] != 'Z'
    requires var s := Substitution(t, Behind(t, c)); s.ok ==> t[s.c.pos] != 'I'
    ensures !Name(t, c).ok && Name(t, c).c == Behind(t, c)
  {
    hide NestedName, LocalName, UnscopedName, Substitution, TemplateArgs, Frozen, Clean, Flat, Silent;
    TemplateOrSubstitutionDud(t, c);
    var d := Behind(t, c);
    UnscopedFails(t, d);
    TemplateOrSubstitutionDud(t, Substitution(t, d).c);
    assert NestedName(t, c).Then(LocalName(t, c)).c == d;
  }

  /** None of the alternatives of a type that begin with a sign of their own. */
  predicate Unsigned(ch: char) {
    ch != 'r' && ch != 'V' && ch != 'K' && ch !in "OPRCG" && ch != 'D' && ch != 'U'
  }

  lemma NoSign(t: CString, c: Core)
    requires Good(t, c) && Unsigned(t[c.pos])
    ensures !QualifiedType(t, c).ok && !PointerType(t, c).ok && !PackExpansion(t, c).ok && !DeclType(t, c).ok
    ensures !VendorType(t, c).ok
  {
    hide Type, SourceName, Expression;
  }

  lemma NoBuiltinHere(t: CString, c: Core)
    requires Good(t, c) && !IsLower(t[c.pos])
    ensures !BuiltinType(t, c).ok
  {
    hide SourceName;
    NoBuiltin(t[c.pos], 0);
  }

  lemma PlainFails(t: CString, c: Core)
    requires Good(t, c) && !IsLower(t[c.pos]) && t[c.pos] !in "FZAMS"
    requires !Name(t, c).ok && Name(t, c).c == Behind(t, c)
    ensures !PlainType(t, c).ok && PlainType(t, c).c == Behind(t, c)
  {
    hide Name, Behind, BuiltinType, ArrayType, PointerToMemberType, Substitution, Frozen, Clean, Flat, Silent;
    hide BareFunctionType;
    NoBuiltinHere(t, c);
    var d := Behind(t, c);
    ArrayOrMemberDud(t, d);
    TemplateOrSubstitutionDud(t, d);
    assert BuiltinType(t, c).Then(FunctionType(t, c)).c == c;
  }

  /** Neither a name nor any other sign of a type. */
  lemma TypeFails(t: CString, c: Core)
    requires Good(t, c) && Nameless(t, c) && Unsigned(t[c.pos]) && t[c.pos] !in "FNZAMST"
    ensures !Type(t, c).ok
  {
    hide Name, Behind, Nameless, PlainType, TemplateParam, Substitution, TemplateArgs, Frozen, Clean, Flat, Silent;
    hide QualifiedType, PointerType, PackExpansion, DeclType, VendorType;
    Letters(t, c);
    NoSign(t, c);
    var d := Behind(t, c);
    TemplateOrSubstitutionDud(t, d);
    TemplateOrSubstitutionDud(t, c);
    NameFails(t, c);
    PlainFails(t, c);
  }

  lemma Letters(t: CString, c: Core)
    requires Good(t, c) && Nameless(t, c)
    ensures !IsLower(t[c.pos])
  {
  }

  // ---------------------------------------------------------------- types

  lemma ReadIsOk(t: CString, r: Res, p: nat, q: nat, shown: string)
    requires Reads(t, r, p, q, shown)
    ensures Reaches(t, r, p, q) && Adds(r.tr, shown)
  {
  }

  lemma TypeIsQualified(t: CString, c: Core, p: nat, q: nat, shown: string)
    requires Good(t, c) && CVQualifiers(t, c).ok && Reads(t, Type(t, CVQualifiers(t, c).c), p, q, shown)
    ensures Reads(t, Type(t, c), p, q, shown)
  {
    hide Reads, CVQualifiers, PointerType, PackExpansion, DeclType, VendorType, PlainType, Frozen, Clean, Flat, Exec;
    ReadIsOk(t, Type(t, CVQualifiers(t, c).c), p, q, shown);
    assert Type(t, c) == QualifiedType(t, c);
  }

  lemma Unqualified(t: CString, c: Core)
    requires Good(t, c) && t[c.pos] != 'r' && t[c.pos] != 'V' && t[c.pos] != 'K'
    ensures !QualifiedType(t, c).ok
  {
    hide Type;
  }

  lemma TypeIsPointer(t: CString, c: Core, p: nat, q: nat, shown: string)
    requires Good(t, c) && t[c.pos] in "OPRCG" && Reads(t, Type(t, c.Skip(1)), p, q, shown)
    ensures Reads(t, Type(t, c), p, q, shown)
  {
    hide Reads, QualifiedType, PackExpansion, DeclType, VendorType, PlainType, Frozen, Clean, Flat, Exec;
    ReadIsOk(t, Type(t, c.Skip(1)), p, q, shown);
    Unqualified(t, c);
    After(t, QualifiedType(t, c), PointerType(t, c), p, q, shown);
    assert Type(t, c) == QualifiedType(t, c).Then(PointerType(t, c));
  }

  lemma TypeIsExpansion(t: CString, c: Core, p: nat, q: nat, shown: string)
    requires Good(t, c) && Is2(t, c, 'D', 'p') && Reads(t, Type(t, c.Skip(2)), p, q, shown)
    ensures Reads(t, Type(t, c), p, q, shown)
  {
    hide Reads, QualifiedType, DeclType, VendorType, PlainType, Frozen, Clean, Flat, Exec;
    ReadIsOk(t, Type(t, c.Skip(2)), p, q, shown);
    Unqualified(t, c);
    var a := QualifiedType(t, c).Then(PointerType(t, c));
    After(t, a, PackExpansion(t, c), p, q, shown);
    assert Type(t, c) == a.Then(PackExpansion(t, c));
  }

  lemma TypeIsVendor(t: CString, c: Core, p: nat, q: nat, word: string, shown: string)
    requires Good(t, c) && t[c.pos] == 'U' && SourceName(t, c.Skip(1)).ok && Adds(SourceName(t, c.Skip(1)).tr, word)
    requires Reads(t, Type(t, SourceName(t, c.Skip(1)).c), p, q, shown)
    ensures Reads(t, Type(t, c), p, q, word + shown)
  {
    hide Reads, Adds, QualifiedType, PackExpansion, DeclType, PlainType, SourceName, Frozen, Clean, Flat, Exec;
    var s := SourceName(t, c.Skip(1));
    ReadIsOk(t, Type(t, s.c), p, q, shown);
    assert Reads(t, s, s.c.pos, s.c.arg, word) by { OkReads(t, s, word); }
    Joined(t, s, Type(t, s.c), s.c.pos, s.c.arg, word, p, q, shown);
    Unqualified(t, c);
    assert !PackExpansion(t, c).ok && !DeclType(t, c).ok by { hide Type, Expression; NoPack(t, c); }
    var a := QualifiedType(t, c).Then(PointerType(t, c)).Then(PackExpansion(t, c)).Then(DeclType(t, c));
    After(t, a, VendorType(t, c), p, q, word + shown);
    assert Type(t, c) == a.Then(VendorType(t, c));
  }

  lemma OkReads(t: CString, r: Res, shown: string)
    requires r.ok && Good(t, r.c) && Adds(r.tr, shown)
    ensures Reads(t, r, r.c.pos, r.c.arg, shown)
  {
  }

  lemma NoPack(t: CString, c: Core)
    requires Good(t, c) && t[c.pos] != 'D'
    ensures !PackExpansion(t, c).ok && !DeclType(t, c).ok
  {
    hide Type, Expression;
  }

  lemma TypeIsPlain(t: CString, c: Core, p: nat, q: nat, shown: string)
    requires Good(t, c) && Unsigned(t[c.pos]) && Reads(t, PlainType(t, c), p, q, shown)
    ensures Reads(t, Type(t, c), p, q, shown)
  {
    hide Reads, Unsigned, QualifiedType, PointerType, PackExpansion, DeclType, VendorType, PlainType;
    hide Frozen, Clean, Flat, Exec;
    NoSign(t, c);
    ReadIsOk(t, PlainType(t, c), p, q, shown);
    var a := QualifiedType(t, c).Then(PointerType(t, c)).Then(PackExpansion(t, c)).Then(DeclType(t, c));
    After(t, a.Then(VendorType(t, c)), PlainType(t, c), p, q, shown);
    assert Type(t, c) == a.Then(VendorType(t, c)).Then(PlainType(t, c));
  }

  lemma PlainIsBuiltin(t: CString, c: Core, p: nat, q: nat, shown: string)
    requires Good(t, c) && Reads(t, BuiltinType(t, c), p, q, shown)
    ensures Reads(t, PlainType(t, c), p, q, shown)
  {
    hide Reads, BuiltinType, FunctionType, Name, Frozen, Clean, Flat, Exec;
    ReadIsOk(t, BuiltinType(t, c), p, q, shown);
  }

  lemma PlainIsFunction(t: CString, c: Core, p: nat, q: nat, shown: string)
    requires Good(t, c) && t[c.pos] == 'F'
    requires var y := if t[c.pos + 1] == 'Y' then c.Skip(2) else c.Skip(1);
             Good(t, y) && Reads(t, BareFunctionType(t, y), p, q, shown)
    requires p < |t| && t[p] == 'E'
    ensures Reads(t, PlainType(t, c), p + 1, q, shown)
  {
    hide BuiltinType, BareFunctionType, Name, Frozen, Clean, Flat, Adds, Exec;
    NoBuiltinHere(t, c);
    var f := FunctionType(t, c);
    assert Reads(t, f, p + 1, q, shown);
    hide Reads;
    After(t, BuiltinType(t, c), f, p + 1, q, shown);
  }

  lemma PlainIsName(t: CString, c: Core, p: nat, q: nat, shown: string)
    requires Good(t, c) && !IsLower(t[c.pos]) && t[c.pos] != 'F' && Reads(t, Name(t, c), p, q, shown)
    ensures Reads(t, PlainType(t, c), p, q, shown)
  {
    hide Reads, BuiltinType, BareFunctionType, Name, Frozen, Clean, Flat, Exec;
    NoBuiltinHere(t, c);
    ReadIsOk(t, Name(t, c), p, q, shown);
    After(t, BuiltinType(t, c).Then(FunctionType(t, c)), Name(t, c), p, q, shown);
  }

  /** A name is tried there in vain. */
  predicate NoName(t: CString, c: Core)
    requires Good(t, c)
  {
    !IsLower(t[c.pos]) && t[c.pos] != 'F' && t[c.pos] != 'Z' && !Name(t, c).ok && Name(t, c).c == Behind(t, c)
  }

  lemma PlainIsArray(t: CString, c: Core, p: nat, q: nat, shown: string)
    requires Good(t, c) && t[c.pos] == 'A' && NoName(t, c)
    requires var n := Number(t, Behind(t, c).Skip(1));
             n.ok && t[n.c.pos] == '_' && Reads(t, Type(t, n.c.Skip(1)), p, q, shown)
    ensures Reads(t, PlainType(t, c), p, q, shown)
  {
    hide Reads, BuiltinType, BareFunctionType, Name, Behind, Number, Type, Expression, Frozen, Clean, Flat, Exec;
    NoBuiltinHere(t, c);
    var d := Behind(t, c);
    ReadIsOk(t, Type(t, Number(t, d.Skip(1)).c.Skip(1)), p, q, shown);
    assert ArrayType(t, d) == Type(t, Number(t, d.Skip(1)).c.Skip(1));
    After(t, BuiltinType(t, c).Then(FunctionType(t, c)).Then(Name(t, c)), ArrayType(t, d), p, q, shown);
  }

  lemma PlainIsMember(t: CString, c: Core, pa: nat, qa: nat, class_: string, p: nat, q: nat, shown: string)
    requires Good(t, c) && t[c.pos] == 'M' && NoName(t, c)
    requires var a := Type(t, Behind(t, c).Skip(1)); Reads(t, a, pa, qa, class_) && Reads(t, Type(t, a.c), p, q, shown)
    ensures Reads(t, PlainType(t, c), p, q, class_ + shown)
  {
    hide Reads, BuiltinType, BareFunctionType, Name, Behind, Type, ArrayType, Frozen, Clean, Flat, Exec;
    NoBuiltinHere(t, c);
    var d := Behind(t, c);
    var a := Type(t, d.Skip(1));
    ReadIsOk(t, a, pa, qa, class_);
    Joined(t, a, Type(t, a.c), pa, qa, class_, p, q, shown);
    ReadIsOk(t, a.Then(Type(t, a.c)), p, q, class_ + shown);
    assert PointerToMemberType(t, d) == a.Then(Type(t, a.c));
    ArrayOrMemberDud(t, d);
    var b := BuiltinType(t, c).Then(FunctionType(t, c)).Then(Name(t, c)).Then(ArrayType(t, d));
    After(t, b, PointerToMemberType(t, d), p, q, class_ + shown);
  }

  lemma PlainIsSubstitution(t: CString, c: Core, p: nat, q: nat, shown: string)
    requires Good(t, c) && t[c.pos] == 'S' && NoName(t, c) && Reads(t, Substitution(t, Behind(t, c)), p, q, shown)
    ensures Reads(t, PlainType(t, c), p, q, shown)
  {
    hide Reads, BuiltinType, BareFunctionType, Name, Behind, ArrayType, PointerToMemberType, Substitution;
    hide Frozen, Clean, Flat, Exec, Silent;
    NoBuiltinHere(t, c);
    var d := Behind(t, c);
    ArrayOrMemberDud(t, d);
    var b := BuiltinType(t, c).Then(FunctionType(t, c)).Then(Name(t, c)).Then(ArrayType(t, d));
    After(t, b.Then(PointerToMemberType(t, d)), Substitution(t, d), p, q, shown);
  }

  /** A parameter of a template, read once as a template itself, and taken back. */
  lemma TypeIsParameter(t: CString, c: Core, p: nat, q: nat, shown: string)
    requires Good(t, c) && t[c.pos] == 'T' && NoName(t, c) && Reads(t, TemplateParam(t, c), p, q, shown)
    requires Reads(t, TemplateParam(t, Behind(t, c)), p, q, shown) && t[p] != 'I'
    ensures Reads(t, Type(t, c), p, q, shown)
  {
    hide Reads, QualifiedType, PointerType, PackExpansion, DeclType, VendorType, PlainType, TemplateParam, TemplateArgs;
    hide NoName, Name, Behind, Frozen, Clean, Flat, Exec, Silent;
    NoSign(t, c);
    NotPlain(t, c);
    var d := Behind(t, c);
    var m := TemplateParam(t, d);
    ReadIsOk(t, m, p, q, shown);
    TemplateOrSubstitutionDud(t, m.c);
    var a := QualifiedType(t, c).Then(PointerType(t, c)).Then(PackExpansion(t, c)).Then(DeclType(t, c));
    var v := PlainType(t, c).Then(TemplateTemplateParam(t, d)).Then(TemplateArgs(t, m.c));
    After(t, a.Then(VendorType(t, c)).Then(v.Undo(c)), TemplateParam(t, c), p, q, shown);
    assert Type(t, c) == a.Then(VendorType(t, c)).Then(v.Undo(c)).Then(TemplateParam(t, c));
  }

  lemma NotPlain(t: CString, c: Core)
    requires Good(t, c) && t[c.pos] == 'T' && NoName(t, c)
    ensures t[c.pos] != 'Z' && !PlainType(t, c).ok && PlainType(t, c).c == Behind(t, c)
  {
    hide PlainType, Name, Behind;
    PlainFails(t, c);
  }

  lemma TypeIsInstance(t: CString, c: Core, pm: nat, qm: nat, before: string, p: nat, q: nat)
    requires Good(t, c) && t[c.pos] == 'T' && NoName(t, c) && before != ""
    requires var m := TemplateParam(t, Behind(t, c));
             Reads(t, m, pm, qm, before) && Reaches(t, TemplateArgs(t, m.c), p, q)
    ensures Reads(t, Type(t, c), p, q, before + Marks(before, "<>"))
  {
    hide Reads, QualifiedType, PointerType, PackExpansion, DeclType, VendorType, PlainType, TemplateParam, TemplateArgs;
    hide NoName, Name, Behind, Frozen, Clean, Flat, Exec, Silent;
    NoSign(t, c);
    NotPlain(t, c);
    var d := Behind(t, c);
    var m := TemplateParam(t, d);
    ReadIsOk(t, m, pm, qm, before);
    var a := QualifiedType(t, c).Then(PointerType(t, c)).Then(PackExpansion(t, c)).Then(DeclType(t, c));
    var u := PlainType(t, c).Then(m);
    After(t, PlainType(t, c), m, pm, qm, before);
    ArgsBehind(t, u, pm, qm, before, p, q);
    After(t, a.Then(VendorType(t, c)), u.Then(TemplateArgs(t, m.c)), p, q, before + Marks(before, "<>"));
    assert TemplateTemplateParam(t, d) == m;
    assert Type(t, c) == a.Then(VendorType(t, c)).Then(u.Then(TemplateArgs(t, m.c)));
  }

  // ---------------------------------------------------------------- arguments

  /** Arguments are read with append off. */
  lemma ArgsBehind(t: CString, a: Res, pa: nat, qa: nat, before: string, p: nat, q: nat)
    requires Reads(t, a, pa, qa, before) && Reaches(t, TemplateArgs(t, a.c), p, q) && before != ""
    ensures Reads(t, a.Then(TemplateArgs(t, a.c)), p, q, before + Marks(before, "<>"))
  {
    hide TemplateArgPlus, Marks, Frozen, Clean, Flat, Tape.Print;
    var s := TemplateArgPlus(t, a.c.Skip(1));
    var shown := before + Marks(before, "<>");
    var r := a.Then(TemplateArgs(t, a.c));
    forall o: Out | o.append
      ensures Exec(r.tr, o).text == o.text + shown && Exec(r.tr, o).append && Exec(r.tr, o).sealed
    {
      var m := Exec(a.tr, o);
      MutedKeeps(s.tr, m.(append := false));
      PrintBehind(Exec(s.Mute().tr, m), o.text, before, "<>");
    }
  }

  lemma ArgsReach(t: CString, c: Core, p: nat, q: nat)
    requires Good(t, c) && t[c.pos] == 'I' && Reaches(t, TemplateArgPlus(t, c.Skip(1)), p, q) && t[p] == 'E'
    ensures Reaches(t, TemplateArgs(t, c), p + 1, q)
  {
    hide TemplateArgPlus, Frozen, Clean, Flat, Exec;
  }

  lemma FirstArg(t: CString, c: Core, p: nat, q: nat)
    requires Good(t, c) && TemplateArg(t, c).ok && Reaches(t, TemplateArgStar(t, TemplateArg(t, c).c), p, q)
    ensures Reaches(t, TemplateArgPlus(t, c), p, q) && Reaches(t, TemplateArgStar(t, c), p, q)
  {
    hide TemplateArg, Frozen, Clean, Flat, Exec;
  }

  /** Behind the last argument one more is tried, and its level stays counted. */
  lemma NoArg(t: CString, c: Core)
    requires Good(t, c) && t[c.pos] == 'E' && c.arg <= MAX_LEVELS
    ensures Reaches(t, TemplateArgStar(t, c), c.pos, c.arg + 1)
  {
    hide ArgPack, Type, ExprPrimary, ArgExpression, Frozen, Clean, Flat, Exec, Silent;
    var d := c.(arg := c.arg + 1);
    NothingStarts(t, d);
    assert !ArgPack(t, d).ok && !ExprPrimary(t, d).ok && !ArgExpression(t, d).ok by { NoSignOfArg(t, d); }
    assert !TemplateArg(t, c).ok;
  }

  lemma NoSignOfArg(t: CString, c: Core)
    requires Good(t, c)
    ensures t[c.pos] != 'I' && t[c.pos] != 'J' ==> !ArgPack(t, c).ok
    ensures t[c.pos] != 'L' ==> !ExprPrimary(t, c).ok
    ensures t[c.pos] != 'X' ==> !ArgExpression(t, c).ok
  {
    hide TemplateArgStar, Type, MangledName, Encoding, Expression, Frozen, Clean, Flat, Exec;
  }

  /** The first two alternatives of an argument, one level up. */
  lemma ArgTries(t: CString, c: Core)
    requires Good(t, c) && c.arg <= MAX_LEVELS
    ensures var a, y := ArgPack(t, c.(arg := c.arg + 1)), Type(t, c.(arg := c.arg + 1));
            && (a.ok ==> a.c.arg > 0 && TemplateArg(t, c) == LeaveArg(a))
            && (!a.ok && y.ok ==> y.c.arg > 0 && TemplateArg(t, c) == LeaveArg(a.Then(y)))
  {
    hide ArgPack, Type, ExprPrimary, ArgExpression, Frozen, Clean, Flat, Exec;
  }

  lemma Left(t: CString, r: Res, p: nat, q: nat)
    requires Reaches(t, r, p, q) && q > 0
    ensures Reaches(t, LeaveArg(r), p, q - 1)
  {
  }

  lemma ArgIsType(t: CString, c: Core, p: nat, q: nat)
    requires Good(t, c) && c.arg <= MAX_LEVELS && t[c.pos] != 'I' && t[c.pos] != 'J' && q > 0
    requires Reaches(t, Type(t, c.(arg := c.arg + 1)), p, q)
    ensures Reaches(t, TemplateArg(t, c), p, q - 1)
  {
    hide TemplateArg, ArgPack, Type, LeaveArg, Frozen, Clean, Flat, Exec;
    var d := c.(arg := c.arg + 1);
    NoSignOfArg(t, d);
    ArgTries(t, c);
    Left(t, ArgPack(t, d).Then(Type(t, d)), p, q);
  }

  lemma PackReaches(t: CString, c: Core, p: nat, q: nat)
    requires Good(t, c) && t[c.pos] == 'J' && Reaches(t, TemplateArgStar(t, c.Skip(1)), p, q) && t[p] == 'E'
    ensures Reaches(t, ArgPack(t, c), p + 1, q)
  {
    hide TemplateArgStar, Frozen, Clean, Flat, Exec;
  }

  lemma ArgIsPack(t: CString, c: Core, p: nat, q: nat)
    requires Good(t, c) && c.arg <= MAX_LEVELS && t[c.pos] == 'J' && q > 0
    requires Reaches(t, TemplateArgStar(t, c.(arg := c.arg + 1).Skip(1)), p, q) && t[p] == 'E'
    ensures Reaches(t, TemplateArg(t, c), p + 1, q - 1)
  {
    hide TemplateArg, TemplateArgStar, ArgPack, Type, LeaveArg, Frozen, Clean, Flat, Exec;
    var d := c.(arg := c.arg + 1);
    PackReaches(t, d, p, q);
    ArgTries(t, c);
    Left(t, ArgPack(t, d), p + 1, q);
  }

  /** What begins with L is no type there, but a primary expression. */
  lemma ArgIsPrimary(t: CString, c: Core, p: nat, q: nat)
    requires Good(t, c) && c.arg <= MAX_LEVELS && t[c.pos] == 'L' && Nameless(t, c) && q > 0
    requires Reaches(t, ExprPrimary(t, c.(arg := c.arg + 1)), p, q)
    ensures Reaches(t, TemplateArg(t, c), p, q - 1)
  {
    hide ArgPack, Type, ExprPrimary, ArgExpression, Nameless, Frozen, Clean, Flat, Exec;
    var d := c.(arg := c.arg + 1);
    NoSignOfArg(t, d);
    SameNameless(t, c, d);
    TypeFails(t, d);
    assert TemplateArg(t, c) == LeaveArg(ArgPack(t, d).Then(Type(t, d)).Then(ExprPrimary(t, d)));
  }

  /** L type number E. */
  lemma LiteralIsRead(t: CString, c: Core, p: nat, q: nat, v: NumRes)
    requires Good(t, c) && t[c.pos] == 'L' && Reaches(t, Type(t, c.Skip(1)), p, q)
    requires v == Number(t, Type(t, c.Skip(1)).c) && v.ok && t[v.c.pos] == 'E'
    ensures Reaches(t, ExprPrimary(t, c), v.c.pos + 1, q)
  {
    hide Type, LiteralName, LiteralEncoding, Number, Frozen, Clean, Flat, Exec;
    assert ExprPrimary(t, c) == Literal(t, c, false);
  }

  /** L type digits E, where the digits are no number. */
  lemma FloatIsRead(t: CString, c: Core, p: nat, q: nat, e: nat)
    requires Good(t, c) && t[c.pos] == 'L' && Reaches(t, Type(t, c.Skip(1)), p, q)
    requires var v := Number(t, Type(t, c.Skip(1)).c); v.ok ==> t[v.c.pos] != 'E'
    requires e == RunEnd(t, p, IsLowerHex) && e > p && t[e] == 'E'
    ensures Reaches(t, ExprPrimary(t, c), e + 1, q)
  {
    hide Type, LiteralName, LiteralEncoding, Number, RunEnd, Frozen, Clean, Flat, Exec;
    assert ExprPrimary(t, c) == Literal(t, c, false).Then(Literal(t, c, true));
  }

  /** L _Z encoding E. */
  lemma AddressIsRead(t: CString, c: Core, p: nat, q: nat)
    requires Good(t, c) && t[c.pos] == 'L' && Is2(t, c.Skip(1), '_', 'Z')
    requires Reaches(t, Encoding(t, c.Skip(3)), p, q) && t[p] == 'E'
    ensures Reaches(t, ExprPrimary(t, c), p + 1, q)
  {
    hide Type, Encoding, LiteralEncoding, Frozen, Clean, Flat, Exec;
    TypeFails(t, c.Skip(1));
    assert !Literal(t, c, false).ok && !Literal(t, c, true).ok;
    assert LiteralName(t, c) == Encoding(t, c.Skip(1).Skip(2)).Eat(1);
    hide Literal, LiteralName;
    assert ExprPrimary(t, c) == Literal(t, c, false).Then(Literal(t, c, true)).Then(LiteralName(t, c));
  }

  lemma SameNameless(t: CString, c: Core, d: Core)
    requires Good(t, c) && Good(t, d) && c.pos == d.pos
    ensures Nameless(t, c) <==> Nameless(t, d)
  {
  }

  // ---------------------------------------------------------------- words

  lemma WordIsOperator(t: CString, c: Core, p: nat, q: nat, shown: string)
    requires Good(t, c) && Reads(t, OperatorName(t, c), p, q, shown)
    ensures Reads(t, UnqualifiedName(t, c), p, q, shown)
  {
    hide Reads, OperatorName, CtorDtorName, SourceName, LocalSourceName, Frozen, Clean, Flat, Exec;
    ReadIsOk(t, OperatorName(t, c), p, q, shown);
  }

  lemma OperatorIsConversion(t: CString, c: Core, p: nat, q: nat, shown: string)
    requires Good(t, c) && Is2(t, c, 'c', 'v') && HasChars(t, c.pos, 2) && Reads(t, Type(t, c.Skip(2)), p, q, shown)
    ensures Reads(t, OperatorName(t, c), p, q, "operator " + shown)
  {
    hide Reads, Type, VendorOperator, PlainOperator, Frozen, Clean, Flat, Exec;
    var e, y := Res(true, c.Skip(2), Emit("operator ")), Type(t, c.Skip(2)).Nest();
    NestReads(t, Type(t, c.Skip(2)), p, q, shown);
    EmitReads(t, c.Skip(2), "operator ");
    Joined(t, e, y, c.pos + 2, c.arg, "operator ", p, q, shown);
    ReadIsOk(t, e.Then(y), p, q, "operator " + shown);
  }

  function OperatorText(name: string): string
    requires name != ""
  {
    "operator" + ((if IsLower(name[0]) then " " else "") + name)
  }

  lemma OperatorAdds(name: Text)
    requires name != ""
    ensures Adds(OperatorTrace(name), OperatorText(name))
  {
    hide Tape.Print, Out.Print, Marks;
    EmitAdds("operator");
    forall o: Out | o.append
      ensures var r := Exec(OperatorTrace(name), o); r.text == o.text + OperatorText(name) && r.append && r.sealed
    {
      OperatorRun(name, o);
      var m := o.Print("operator");
      assert Exec(Emit("operator"), o) == m;
      if IsLower(name[0]) {
        PrintsOn(m, o.text, "operator", " ");
        PrintsOn(m.Print(" "), o.text, "operator ", name);
        assert "operator " + name == "operator" + (" " + name);
      } else {
        PrintsOn(m, o.text, "operator", name);
        assert "" + name == name;
      }
    }
  }

  lemma PrintsOn(m: Out, text: string, before: string, str: string)
    requires m.append && before != "" && str != "" && m.text == text + before && before[|before| - 1] != '<'
    ensures var r := m.Print(str); r.text == text + (before + str) && r.append && r.sealed
  {
    hide Out.Print;
    PrintBehind(m, text, before, str);
    assert "" + str == str;
  }

  lemma OperatorIsPlain(t: CString, c: Core, k: nat, shown: string)
    requires Good(t, c) && HasChars(t, c.pos, 2) && IsLower(t[c.pos]) && IsAlpha(t[c.pos + 1]) && !Is2(t, c, 'c', 'v')
    requires k == Lookup(OPERATORS, Pair(t[c.pos], t[c.pos + 1]), 0) && k < |OPERATORS|
    requires Adds(OperatorTrace(OPERATORS[k].name), shown)
    ensures Reads(t, OperatorName(t, c), c.pos + 2, c.arg, shown)
  {
    hide OPERATORS, Lookup, Type, SourceName, Adds, OperatorTrace, Frozen, Clean, Flat, Exec;
    var o := PlainOperator(t, c);
    assert Reads(t, o, c.pos + 2, c.arg, shown);
    hide PlainOperator, Reads;
    After(t, Conversion(t, c).Then(VendorOperator(t, c)), o, c.pos + 2, c.arg, shown);
  }

  // ---------------------------------------------------------------- names

  lemma UnscopedIsWord(t: CString, c: Core, p: nat, q: nat, shown: string)
    requires Good(t, c) && Reads(t, UnqualifiedName(t, c), p, q, shown)
    ensures Reads(t, UnscopedName(t, c), p, q, shown)
  {
    hide Reads, UnqualifiedName, Frozen, Clean, Flat, Exec;
    ReadIsOk(t, UnqualifiedName(t, c), p, q, shown);
  }

  lemma UnscopedIsStd(t: CString, c: Core, p: nat, q: nat, shown: string)
    requires Good(t, c) && Is2(t, c, 'S', 't') && Reads(t, UnqualifiedName(t, c.Skip(2)), p, q, shown)
    ensures Reads(t, UnscopedName(t, c), p, q, "std::" + shown)
  {
    hide Reads, UnqualifiedName, Frozen, Clean, Flat, Exec, Silent;
    NoUnqualifiedAtS(t, c);
    var e, w := Res(true, c.Skip(2), Emit("std::")), UnqualifiedName(t, c.Skip(2));
    EmitReads(t, c.Skip(2), "std::");
    Joined(t, e, w, c.pos + 2, c.arg, "std::", p, q, shown);
    ReadIsOk(t, e.Then(w), p, q, "std::" + shown);
    After(t, UnqualifiedName(t, c), e.Then(w), p, q, "std::" + shown);
  }

  /** Read once as a template, taken back for want of arguments, and read again. */
  lemma NameIsPlain(t: CString, c: Core, p: nat, q: nat, shown: string)
    requires Good(t, c) && t[c.pos] != 'N' && t[c.pos] != 'Z'
    requires var u := UnscopedName(t, Behind(t, c)); Reads(t, u, p, q, shown) && !TemplateArgs(t, u.c).ok
    ensures Reads(t, Name(t, c), p, q, shown)
  {
    hide Reads, NestedName, LocalName, UnscopedName, TemplateArgs, Frozen, Clean, Flat, Exec, Silent;
    TemplateOrSubstitutionDud(t, c);
    var d := Behind(t, c);
    var u := UnscopedName(t, d);
    ReadIsOk(t, u, p, q, shown);
    var b := NestedName(t, c).Then(LocalName(t, c));
    var v := u.Then(TemplateArgs(t, u.c));
    After(t, b.Then(v.Undo(d)), u, p, q, shown);
    assert Name(t, c) == b.Then(v.Undo(d)).Then(u);
  }

  lemma NoArgs(t: CString, c: Core)
    requires Good(t, c) && t[c.pos] != 'I'
    ensures !TemplateArgs(t, c).ok
  {
    hide TemplateArgPlus;
  }

  /** With six lists counted no other is read. */
  lemma LevelsAreUsedUp(t: CString, c: Core)
    requires Good(t, c) && c.arg == MAX_LEVELS + 1
    ensures !TemplateArgs(t, c).ok
  {
    hide Type, ArgPack, ExprPrimary, ArgExpression, TemplateArgStar;
    if t[c.pos] == 'I' { assert !TemplateArg(t, c.Skip(1)).ok; }
  }

  lemma NameIsInstance(t: CString, c: Core, pm: nat, qm: nat, before: string, p: nat, q: nat)
    requires Good(t, c) && t[c.pos] != 'N' && t[c.pos] != 'Z' && before != ""
    requires var u := UnscopedTemplateName(t, Behind(t, c));
             Reads(t, u, pm, qm, before) && Reaches(t, TemplateArgs(t, u.c), p, q)
    ensures Reads(t, Name(t, c), p, q, before + Marks(before, "<>"))
  {
    hide Reads, NestedName, LocalName, UnscopedTemplateName, TemplateArgs, Frozen, Clean, Flat, Exec, Silent;
    TemplateOrSubstitutionDud(t, c);
    var d := Behind(t, c);
    var u := UnscopedTemplateName(t, d);
    ReadIsOk(t, u, pm, qm, before);
    var b := NestedName(t, c).Then(LocalName(t, c));
    var v := u.Then(TemplateArgs(t, u.c));
    ArgsBehind(t, u, pm, qm, before, p, q);
    After(t, b, v, p, q, before + Marks(before, "<>"));
    assert Name(t, c) == b.Then(v);
  }

  lemma TemplateIsUnscoped(t: CString, c: Core, p: nat, q: nat, shown: string)
    requires Good(t, c) && Reads(t, UnscopedName(t, c), p, q, shown)
    ensures Reads(t, UnscopedTemplateName(t, c), p, q, shown)
  {
    hide Reads, UnscopedName, Frozen, Clean, Flat, Exec;
    ReadIsOk(t, UnscopedName(t, c), p, q, shown);
  }

  lemma TemplateIsSubstitution(t: CString, c: Core, p: nat, q: nat, shown: string)
    requires Good(t, c) && Nameless(t, c) && Reads(t, Substitution(t, c), p, q, shown)
    ensures Reads(t, UnscopedTemplateName(t, c), p, q, shown)
  {
    hide Reads, UnscopedName, Substitution, Nameless, Frozen, Clean, Flat, Exec;
    UnscopedFails(t, c);
    After(t, UnscopedName(t, c), Substitution(t, c), p, q, shown);
  }

  // ---------------------------------------------------------------- components of nested names

  /** As "Adds", where the name remembered before is "class_"; "next" is remembered then. An identifier, that is. */
  ghost predicate Follows(tr: Trace, class_: string, shown: string, next: string) {
    forall o: Out {:trigger Exec(tr, o)} :: o.append && (StartsName(class_) ==> o.prev == class_) ==>
      && Exec(tr, o).text == o.text + shown && Exec(tr, o).append && Exec(tr, o).sealed
      && (StartsName(next) ==> Exec(tr, o).prev == next)
  }

  lemma NothingFollows(tr: Trace, class_: string, shown: string)
    requires Adds(tr, shown)
    ensures Follows(tr, class_, shown, "")
  {
    assert !StartsName("");
  }

  lemma IdentifierFollows(class_: string, str: string)
    requires str != "" && str[0] != '<'
    ensures Follows(Emit(str), class_, str, str)
  {
    hide Tape.Print;
    forall o: Out | o.append
      ensures var r := Exec(Emit(str), o);
              r.text == o.text + str && r.append && r.sealed && (StartsName(str) ==> r.prev == str)
    {
      assert o.text + "" + str == o.text + str;
    }
  }

  lemma LibraryFollows(class_: string, str: string)
    requires StartsName(str)
    ensures Follows(StdTrace(str), class_, "std::" + str, str)
  {
    hide Tape.Print;
    forall o: Out | o.append
      ensures var r := Exec(StdTrace(str), o); r.text == o.text + ("std::" + str) && r.append && r.sealed && r.prev == str
    {
      var a := o.Print("std");
      var b := a.Print("::");
      assert a.text == o.text + "" + "std" == o.text + "std";
      assert b.text == a.text + "" + "::" == o.text + "std::";
      assert b.Print(str).text == b.text + "" + str == o.text + ("std::" + str);
      assert Exec(Both(Emit("::"), Emit(str)), a) == b.Print(str);
    }
  }

  /** A constructor repeats the class. */
  lemma ConstructorFollows(class_: string)
    requires StartsName(class_)
    ensures Follows(EmitPrev, class_, class_, "")
  {
    hide Tape.Print;
    forall o: Out | o.append && o.prev == class_
      ensures var r := Exec(EmitPrev, o); r.text == o.text + class_ && r.append && r.sealed
    {
      assert o.text + "" + class_ == o.text + class_;
    }
    assert !StartsName("");
  }

  lemma DestructorFollows(class_: string)
    requires StartsName(class_)
    ensures Follows(Both(Emit("~"), EmitPrev), class_, "~" + class_, "")
  {
    hide Tape.Print;
    forall o: Out | o.append && o.prev == class_
      ensures var r := Exec(Both(Emit("~"), EmitPrev), o);
              r.text == o.text + ("~" + class_) && r.append && r.sealed
    {
      var m := o.Print("~");
      assert m.text == o.text + "" + "~" == o.text + "~" && m.prev == class_;
      assert Exec(Both(Emit("~"), EmitPrev), o) == m.PrintPrev();
      assert m.text + "" + class_ == o.text + ("~" + class_);
    }
    assert !StartsName("");
  }

  /** The same behind attempts that failed. */
  lemma FollowsAfter(a: Trace, b: Trace, class_: string, shown: string, next: string)
    requires Frozen(a) && Follows(b, class_, shown, next)
    ensures Follows(Both(a, b), class_, shown, next)
  {
    hide Frozen;
    forall o: Out | o.append && (StartsName(class_) ==> o.prev == class_)
      ensures var r := Exec(Both(a, b), o);
              && r.text == o.text + shown && r.append && r.sealed && (StartsName(next) ==> r.prev == next)
    {
      FrozenKeeps(a, o);
      AppendKept(a, o);
      assert Exec(Both(a, b), o) == Exec(b, Exec(a, o));
    }
  }

  ghost predicate Links(t: CString, r: Res, p: nat, q: nat, class_: string, shown: string, next: string) {
    Reaches(t, r, p, q) && Follows(r.tr, class_, shown, next)
  }

  lemma LinksAfter(t: CString, a: Res, b: Res, p: nat, q: nat, class_: string, shown: string, next: string)
    requires Frozen(a.tr) && Links(t, b, p, q, class_, shown, next)
    ensures Links(t, a.Then(b), p, q, class_, shown, next)
  {
    hide Follows, Frozen;
    FollowsAfter(a.tr, b.tr, class_, shown, next);
  }

  lemma LinkIsOk(t: CString, r: Res, p: nat, q: nat, class_: string, shown: string, next: string)
    requires Links(t, r, p, q, class_, shown, next)
    ensures Reaches(t, r, p, q) && Follows(r.tr, class_, shown, next)
  {
  }

  lemma ReadLinks(t: CString, r: Res, p: nat, q: nat, class_: string, shown: string)
    requires Reads(t, r, p, q, shown)
    ensures Links(t, r, p, q, class_, shown, "")
  {
    hide Adds, Follows;
    NothingFollows(r.tr, class_, shown);
  }

  lemma LinkReads(t: CString, r: Res, p: nat, q: nat, shown: string, next: string)
    requires Links(t, r, p, q, "", shown, next)
    ensures Reads(t, r, p, q, shown)
  {
    assert !StartsName("");
  }

  /** The tags that stand there, or none, end at "p". */
  predicate TagsTo(t: CString, c: Core, p: nat) {
    Good(t, c) && AbiTags(t, c).c.pos == p && AbiTags(t, c).c.arg == c.arg
  }

  lemma NoTags(t: CString, c: Core)
    requires Good(t, c) && t[c.pos] != 'B'
    ensures TagsTo(t, c, c.pos) && AbiTagStar(t, c).c == c
  {
    hide AbiTags, Silent;
    TemplateOrSubstitutionDud(t, c);
  }

  /** One more tag, and the others. */
  lemma OneTag(t: CString, c: Core, p: nat)
    requires Good(t, c) && t[c.pos] == 'B' && SourceName(t, c.Skip(1)).ok
    requires var d := SourceName(t, c.Skip(1)).c; d.arg == c.arg && AbiTagStar(t, d).c == d.(pos := p)
    ensures AbiTagStar(t, c).c == SourceName(t, c.Skip(1)).c.(pos := p) && TagsTo(t, c, p)
  {
    hide SourceName, Frozen, Clean, Flat, Exec;
  }

  lemma TaggedLinks(t: CString, a: Res, pa: nat, q: nat, class_: string, shown: string, next: string, p: nat)
    requires Links(t, a, pa, q, class_, shown, next) && TagsTo(t, a.c, p)
    ensures Links(t, Tagged(t, a), p, q, class_, shown, next)
  {
    hide AbiTags, Frozen, Clean, Flat, StartsName;
    forall o: Out ensures Exec(Tagged(t, a).tr, o) == Exec(a.tr, o) { TaggedRun(t, a, o); }
  }

  lemma IsLink(t: CString, r: Res, p: nat, q: nat, class_: string, shown: string, next: string)
    requires Reaches(t, r, p, q) && Follows(r.tr, class_, shown, next)
    ensures Links(t, r, p, q, class_, shown, next)
  {
  }

  lemma SourceLinks(t: CString, c: Core, class_: string, str: string, p: nat)
    requires Good(t, c) && IsDigit(t[c.pos]) && str != "" && str[0] != '<'
    requires var s := SourceName(t, c); s.ok && s.c.arg == c.arg && s.tr == Emit(str) && TagsTo(t, s.c, p)
    ensures Links(t, UnqualifiedName(t, c), p, c.arg, class_, str, str)
  {
    hide Links, OperatorName, CtorDtorName, SourceName, LocalSourceName, TagsTo, Tagged, Follows;
    hide Frozen, Clean, Flat, Exec, Silent;
    OperatorDud(t, c);
    CtorDtorDud(t, c);
    var b, s := OperatorName(t, c).Then(CtorDtorName(t, c)), SourceName(t, c);
    IdentifierFollows(class_, str);
    IsLink(t, s, s.c.pos, c.arg, class_, str, str);
    LinksAfter(t, b, s, s.c.pos, c.arg, class_, str, str);
    TaggedLinks(t, b.Then(s), s.c.pos, c.arg, class_, str, str, p);
  }

  /** L source-name, and no discriminator. */
  lemma InternalLinks(t: CString, c: Core, class_: string, str: string, p: nat)
    requires Good(t, c) && t[c.pos] == 'L' && str != "" && str[0] != '<'
    requires var s := SourceName(t, c.Skip(1));
             s.ok && s.c.arg == c.arg && s.tr == Emit(str) && t[s.c.pos] != '_' && TagsTo(t, s.c, p)
    ensures Links(t, UnqualifiedName(t, c), p, c.arg, class_, str, str)
  {
    hide Links, OperatorName, CtorDtorName, SourceName, TagsTo, Tagged, Follows, Frozen, Clean, Flat, Exec, Silent;
    OperatorDud(t, c);
    CtorDtorDud(t, c);
    SourceDud(t, c);
    var b, s := OperatorName(t, c).Then(CtorDtorName(t, c)).Then(SourceName(t, c)), LocalSourceName(t, c);
    assert s == SourceName(t, c.Skip(1));
    hide LocalSourceName;
    IdentifierFollows(class_, str);
    IsLink(t, s, s.c.pos, c.arg, class_, str, str);
    LinksAfter(t, b, s, s.c.pos, c.arg, class_, str, str);
    TaggedLinks(t, b.Then(s), s.c.pos, c.arg, class_, str, str, p);
  }

  lemma OperatorIsVendor(t: CString, c: Core, p: nat, q: nat, shown: string)
    requires Good(t, c) && HasChars(t, c.pos, 2) && t[c.pos] == 'v' && IsDigit(t[c.pos + 1])
    requires Reads(t, SourceName(t, c.Skip(2)), p, q, shown)
    ensures Reads(t, OperatorName(t, c), p, q, shown)
  {
    hide Reads, SourceName, PlainOperator, Type, Frozen, Clean, Flat, Exec;
    ReadIsOk(t, SourceName(t, c.Skip(2)), p, q, shown);
    assert VendorOperator(t, c) == SourceName(t, c.Skip(2));
    hide VendorOperator;
    After(t, Conversion(t, c), VendorOperator(t, c), p, q, shown);
  }

  /** Constructors are C1 to C3, destructors D0 to D2. */
  lemma StructorLinks(t: CString, c: Core, class_: string, shown: string)
    requires Good(t, c) && CtorDtorName(t, c).ok && Follows(CtorDtorName(t, c).tr, class_, shown, "")
    requires t[c.pos] == 'C' || t[c.pos] == 'D'
    ensures Links(t, UnqualifiedName(t, c), CtorDtorName(t, c).c.pos, CtorDtorName(t, c).c.arg, class_, shown, "")
  {
    hide Links, OperatorName, CtorDtorName, SourceName, LocalSourceName, Follows, Frozen, Clean, Flat, Exec, Silent;
    OperatorDud(t, c);
    var s := CtorDtorName(t, c);
    IsLink(t, s, s.c.pos, s.c.arg, class_, shown, "");
    LinksAfter(t, OperatorName(t, c), s, s.c.pos, s.c.arg, class_, shown, "");
  }

  lemma PartIsWord(t: CString, c: Core, p: nat, q: nat, class_: string, shown: string, next: string)
    requires Good(t, c) && t[c.pos] != 'S' && t[c.pos] != 'T'
    requires Links(t, UnqualifiedName(t, c), p, q, class_, shown, next)
    ensures Links(t, PrefixPart(t, c), p, q, class_, shown, next)
  {
    hide Links, TemplateParam, Substitution, UnqualifiedName, Frozen, Clean, Flat, Exec, Silent;
    TemplateOrSubstitutionDud(t, c);
    LinkIsOk(t, UnqualifiedName(t, c), p, q, class_, shown, next);
    assert UnscopedName(t, c) == UnqualifiedName(t, c);
    hide UnscopedName;
    LinksAfter(t, TemplateParam(t, c).Then(Substitution(t, c)), UnscopedName(t, c), p, q, class_, shown, next);
  }

  lemma PartIsSubstitution(t: CString, c: Core, p: nat, q: nat, class_: string, shown: string, next: string)
    requires Good(t, c) && t[c.pos] == 'S' && Links(t, Substitution(t, c), p, q, class_, shown, next)
    ensures Links(t, PrefixPart(t, c), p, q, class_, shown, next)
  {
    hide Links, TemplateParam, Substitution, UnscopedName, Frozen, Clean, Flat, Exec, Silent;
    TemplateOrSubstitutionDud(t, c);
    LinkIsOk(t, Substitution(t, c), p, q, class_, shown, next);
    LinksAfter(t, TemplateParam(t, c), Substitution(t, c), p, q, class_, shown, next);
  }

  lemma PartIsParameter(t: CString, c: Core, p: nat, q: nat, class_: string, shown: string)
    requires Good(t, c) && Reads(t, TemplateParam(t, c), p, q, shown)
    ensures Links(t, PrefixPart(t, c), p, q, class_, shown, "")
  {
    hide Links, Reads, TemplateParam, Substitution, UnscopedName, Frozen, Clean, Flat, Exec;
    ReadIsOk(t, TemplateParam(t, c), p, q, shown);
    ReadLinks(t, TemplateParam(t, c), p, q, class_, shown);
  }

  // ---------------------------------------------------------------- the loop of a prefix

  /** The level after "k" components. */
  function Level(k: nat): int { if k <= SHORT_MAX then k else -SHORT_MAX - 1 }

  predicate Knows(o: Out, class_: string) { StartsName(class_) ==> o.prev == class_ }

  lemma SeparatedText(o: Out, k: nat)
    requires o.append && o.nest == Level(k) && k <= SHORT_MAX
    ensures var m := o.Separate();
            m.text == o.text + (if k >= 1 then "::" else "") && m.append && m.prev == o.prev && m.nest == o.nest
  {
    hide Tape.Print;
    assert o.text + "" + "::" == o.text + "::";
  }

  /** The state behind one more component. */
  function OneDeeper(a: Trace, o: Out): Out { Exec(a, o.Separate()).Descend() }

  lemma PartTurn(t: CString, c: Core, some: bool, k: nat, class_: string, shown: string, next: string, o: Out)
    requires Good(t, c) && PrefixPart(t, c).ok && Follows(PrefixPart(t, c).tr, class_, shown, next)
    requires k <= SHORT_MAX && o.append && o.nest == Level(k) && Knows(o, class_)
    ensures var a, r := PrefixPart(t, c), Prefix(t, c, some);
            var m, rest := OneDeeper(a.tr, o), Prefix(t, a.c, true);
            && r.c == rest.c && Exec(r.tr, o) == Exec(rest.tr, m)
            && m.append && m.sealed && m.nest == Level(k + 1) && Knows(m, next)
            && m.text == o.text + ((if k >= 1 then "::" else "") + shown)
  {
    hide PrefixPart, Prefix, Exec, Out.Separate, Follows, Frozen, Clean, Flat;
    var a := PrefixPart(t, c);
    PrefixTurn(t, c, some, o);
    SeparatedText(o, k);
    var s := o.Separate();
    FlatKeeps(a.tr, s);
    Following(a.tr, class_, shown, next, s);
    var sep := if k >= 1 then "::" else "";
    assert o.text + sep + shown == o.text + (sep + shown);
  }

  lemma Following(tr: Trace, class_: string, shown: string, next: string, o: Out)
    requires Follows(tr, class_, shown, next) && o.append && Knows(o, class_)
    ensures var r := Exec(tr, o); r.text == o.text + shown && r.append && r.sealed && Knows(r, next)
  {
  }

  /** A separator behind which nothing came. */
  lemma CancelsBack(tr: Trace, o: Out)
    requires Frozen(tr) && o.append
    ensures var r := Exec(tr, o.Separate()).Cancel();
            && r.text == o.text && r.append && r.prev == o.prev && r.nest == o.nest && (o.nest >= 1 ==> r.sealed)
            && (o.nest < 1 ==> r == Exec(tr, o))
  {
    hide Tape.Print, Tape.Cancel, Frozen;
    FrozenKeeps(tr, o.Separate());
    AppendKept(tr, o.Separate());
    assert o.nest >= 1 ==> o.Separate().text == o.text + "::" && o.Separate().text[..|o.text|] == o.text;
  }

  /** The end of the components. */
  lemma EndTurn(t: CString, c: Core, some: bool, o: Out)
    requires Good(t, c) && t[c.pos] == 'E' && o.append && o.sealed
    ensures var r := Prefix(t, c, some);
            r.c == c && Exec(r.tr, o).text == o.text && Exec(r.tr, o).append && Exec(r.tr, o).sealed
  {
    hide PrefixPart, TemplateArgs, Prefix, Exec, Out.Separate, Out.Cancel, Frozen, Clean, Flat, Silent, Nameless;
    PrefixTurn(t, c, some, o);
    NothingStarts(t, c);
    var a := PrefixPart(t, c);
    CancelsBack(a.tr, o);
    SilentRun(a.tr, o);
    var m := Exec(a.tr, o.Separate()).Cancel();
    TemplateOrSubstitutionDud(t, a.c);
    SilentRun(TemplateArgs(t, a.c).tr, m);
  }

  /** Arguments behind a component that is shown as "before". */
  lemma ArgsTurn(t: CString, c: Core, text: string, before: string, p: nat, q: nat, o: Out) returns (m: Out)
    requires Good(t, c) && t[c.pos] == 'I' && Reaches(t, TemplateArgs(t, c), p, q)
    requires o.append && before != "" && o.text == text + before
    ensures var r, rest := Prefix(t, c, true), Prefix(t, TemplateArgs(t, c).c, false);
            && r.c == rest.c && Exec(r.tr, o) == Exec(rest.tr, m)
            && m.append && m.sealed && m.nest == o.nest && m.prev == o.prev
            && m.text == text + (before + Marks(before, "<>"))
  {
    hide PrefixPart, TemplateArgs, Prefix, Exec, Out.Separate, Out.Cancel, Frozen, Clean, Flat, Marks;
    PrefixTurn(t, c, true, o);
    PartFails(t, c);
    var a, d := PrefixPart(t, c), TemplateArgs(t, c);
    CancelsBack(a.tr, o);
    var n := Exec(a.tr, o.Separate()).Cancel();
    m := Exec(d.tr, n);
    ArgsRun(t, c, n);
    PrintBehind(n, text, before, "<>");
    AnglesAreNoName(n);
    FlatKeeps(d.tr, n);
  }

  lemma AnglesAreNoName(o: Out)
    ensures o.Print("<>").prev == o.prev && o.Print("<>").nest == o.nest
  {
    hide Tape.Print;
  }

  lemma ArgsRun(t: CString, c: Core, o: Out)
    requires Good(t, c) && TemplateArgs(t, c).ok && o.append
    ensures Exec(TemplateArgs(t, c).tr, o) == o.Print("<>")
  {
    hide TemplateArgPlus, Tape.Print, Frozen, Clean;
    var s := TemplateArgPlus(t, c.Skip(1));
    MutedKeeps(s.tr, o.(append := false));
    FlatKeeps(s.tr, o.(append := false));
  }

  lemma NestedReads(t: CString, c: Core, p: nat, q: nat, shown: string)
    requires Good(t, c) && t[c.pos] == 'N'
    requires Reaches(t, Prefix(t, CVQualifiers(t, c.Skip(1)).c, false), p, q) && t[p] == 'E'
    requires forall o: Out {:trigger Exec(Prefix(t, CVQualifiers(t, c.Skip(1)).c, false).tr, o)} ::
               o.append && o.nest == 0 ==>
                 var r := Exec(Prefix(t, CVQualifiers(t, c.Skip(1)).c, false).tr, o);
                 r.text == o.text + shown && r.append && r.sealed
    ensures Reads(t, Name(t, c), p + 1, q, shown)
  {
    hide CVQualifiers, Prefix, LocalName, UnscopedName, Frozen, Clean, Flat;
    var x := Prefix(t, CVQualifiers(t, c.Skip(1)).c, false);
    assert NestedName(t, c) == x.Nest().Eat(1);
    assert Name(t, c) == NestedName(t, c);
  }

  // ---------------------------------------------------------------- encodings

  lemma FirstType(t: CString, c: Core, p: nat, q: nat)
    requires Good(t, c) && Type(t, c).ok && Reaches(t, TypeStar(t, Type(t, c).c), p, q)
    ensures Reaches(t, TypePlus(t, c), p, q) && Reaches(t, TypeStar(t, c), p, q)
  {
    hide Type, Frozen, Clean, Flat, Exec;
  }

  lemma NoMoreTypes(t: CString, c: Core)
    requires Good(t, c) && (Ends(t, c) || t[c.pos] == 'I')
    ensures Reaches(t, TypeStar(t, c), c.pos, c.arg)
  {
    hide Type, Ends, Frozen, Clean, Flat, Exec, Silent;
    if t[c.pos] == 'I' { TypeFails(t, c); } else { NothingStarts(t, c); }
  }

  lemma SignatureReads(t: CString, c: Core, p: nat, q: nat)
    requires Good(t, c) && Reaches(t, TypePlus(t, c), p, q)
    ensures Reads(t, BareFunctionType(t, c), p, q, "()")
  {
    hide TypePlus, Reads, Frozen, Clean, Flat, Exec;
    MutedReads(t, TypePlus(t, c), p, q, "()");
  }

  lemma EncodingIsFunction(t: CString, c: Core, pn: nat, qn: nat, name: string, p: nat, q: nat)
    requires Good(t, c) && Reads(t, Name(t, c), pn, qn, name) && Reads(t, BareFunctionType(t, Name(t, c).c), p, q, "()")
    ensures Reads(t, Encoding(t, c), p, q, name + "()")
  {
    hide Name, BareFunctionType, Reads, Frozen, Clean, Flat, Exec;
    var n, f := Name(t, c), BareFunctionType(t, Name(t, c).c);
    ReadIsOk(t, n, pn, qn, name);
    Joined(t, n, f, pn, qn, name, p, q, "()");
    ReadIsOk(t, n.Then(f), p, q, name + "()");
  }

  /** A name without a signature is taken back for want of one, and read again. */
  lemma EncodingIsName(t: CString, c: Core, p: nat, q: nat, shown: string)
    requires Good(t, c) && Reads(t, Name(t, c), p, q, shown) && Ends(t, Name(t, c).c)
    ensures Reads(t, Encoding(t, c), p, q, shown)
  {
    hide Name, BareFunctionType, Reads, Ends, Frozen, Clean, Flat, Exec, Silent;
    var n := Name(t, c);
    ReadIsOk(t, n, p, q, shown);
    NothingStarts(t, n.c);
    var f := n.Then(BareFunctionType(t, n.c));
    After(t, f.Undo(c), n, p, q, shown);
    assert Encoding(t, c) == f.Undo(c).Then(n);
  }

  lemma NoNameAtSpecial(t: CString, c: Core)
    requires Good(t, c) && (t[c.pos] == 'T' || t[c.pos] == 'G')
    ensures !Name(t, c).ok && Name(t, c).c == Behind(t, c) && Frozen(Name(t, c).tr)
  {
    hide Name, LocalName, Behind, Substitution, Frozen, Clean, Flat, Silent;
    TemplateOrSubstitutionDud(t, Behind(t, c));
    NameFails(t, c);
  }

  predicate TriedInVain(e: Res, c: Core, n: Res, s: Res) { e == n.Undo(c).Then(n).Then(s) }

  lemma EncodingTriesSpecial(t: CString, c: Core)
    requires Good(t, c) && !Name(t, c).ok
    ensures TriedInVain(Encoding(t, c), c, Name(t, c), SpecialName(t, Name(t, c).c))
  {
    hide Name, BareFunctionType, SpecialName, Frozen, Clean, Flat, Exec, Res.Undo;
  }

  lemma VainReads(t: CString, e: Res, c: Core, n: Res, s: Res, p: nat, q: nat, shown: string)
    requires TriedInVain(e, c, n, s) && Frozen(n.tr) && Reads(t, s, p, q, shown)
    ensures Reads(t, e, p, q, shown)
  {
    hide Reads, Frozen, Clean, Flat, Exec;
    After(t, n.Undo(c).Then(n), s, p, q, shown);
  }

  /** Where a special name stands, a name is tried twice in vain first. */
  lemma EncodingIsSpecial(t: CString, c: Core)
    requires Good(t, c) && (t[c.pos] == 'T' || t[c.pos] == 'G')
    ensures TriedInVain(Encoding(t, c), c, Name(t, c), SpecialName(t, Behind(t, c))) && Frozen(Name(t, c).tr)
  {
    hide Name, LocalName, Encoding, Behind, SpecialName, Frozen, Clean, Flat, Exec, TriedInVain;
    NoNameAtSpecial(t, c);
    EncodingTriesSpecial(t, c);
  }

  /** A letter behind 'T' or 'G' tells which alternative of the special names it can be. */
  lemma SpecialLetters(t: CString, c: Core)
    requires Good(t, c)
    ensures !(t[c.pos] == 'T' && t[c.pos + 1] in "VTIS") ==> !SpecialType(t, c, "VTIS").ok
    ensures !(t[c.pos] == 'T' && t[c.pos + 1] in "FJ") ==> !SpecialType(t, c, "FJ").ok
    ensures !Is2(t, c, 'T', 'c') ==> !CovariantThunk(t, c).ok
    ensures !Is2(t, c, 'G', 'V') ==> !GuardName(t, c, 'V').ok
    ensures !Is2(t, c, 'G', 'R') ==> !GuardName(t, c, 'R').ok
    ensures !Is2(t, c, 'T', 'C') ==> !ConstructionVtable(t, c).ok
  {
    hide Type, Name, Encoding, CallOffset, Frozen, Clean, Flat, Exec;
  }

  lemma NoCallOffset(t: CString, c: Core)
    requires Good(t, c) && t[c.pos] != 'h' && t[c.pos] != 'v'
    ensures !CallOffset(t, c).ok
  {
    hide VOffset, Number;
  }

  lemma NoThunk(t: CString, c: Core)
    requires Good(t, c) && !Is2(t, c, 'T', 'h') && !Is2(t, c, 'T', 'v')
    ensures !Thunk(t, c, "").ok
  {
    hide Encoding, CallOffset, Frozen, Clean, Flat, Exec;
    if t[c.pos] == 'T' { NoCallOffset(t, c.Skip(1)); }
  }

  lemma SpecialIsTable(t: CString, c: Core, p: nat, q: nat, shown: string)
    requires Good(t, c) && t[c.pos] == 'T' && t[c.pos + 1] in "VTIS" && Reads(t, Type(t, c.Skip(2)), p, q, shown)
    ensures Reads(t, SpecialName(t, c), p, q, shown)
  {
    hide Reads, Type, Frozen, Clean, Flat, Exec;
    ReadIsOk(t, Type(t, c.Skip(2)), p, q, shown);
    assert SpecialType(t, c, "VTIS") == Type(t, c.Skip(2));
    hide SpecialType, CovariantThunk, GuardName, Thunk, ConstructionVtable, GuardEncoding;
  }

  /** The first four alternatives of a special name. */
  function FirstSpecials(t: CString, c: Core): Res
    requires Good(t, c)
  {
    SpecialType(t, c, "VTIS").Then(CovariantThunk(t, c)).Then(GuardName(t, c, 'V')).Then(Thunk(t, c, ""))
  }

  lemma FirstSpecialsFail(t: CString, c: Core)
    requires Good(t, c) && !SpecialType(t, c, "VTIS").ok && !CovariantThunk(t, c).ok && !GuardName(t, c, 'V').ok
    requires !Thunk(t, c, "").ok
    ensures Frozen(FirstSpecials(t, c).tr)
  {
    hide SpecialType, CovariantThunk, GuardName, Thunk, Frozen, Clean, Flat, Exec;
  }

  lemma SpecialIsLater(t: CString, c: Core, p: nat, q: nat, shown: string)
    requires Good(t, c) && (t[c.pos] == 'T' ==> t[c.pos + 1] in "FJ") && !Is2(t, c, 'G', 'V')
    requires var x := if t[c.pos] == 'T' then SpecialType(t, c, "FJ")
                      else if Is2(t, c, 'G', 'R') then GuardName(t, c, 'R') else GuardEncoding(t, c);
             Reads(t, x, p, q, shown)
    ensures Reads(t, SpecialName(t, c), p, q, shown)
  {
    hide Reads, SpecialType, CovariantThunk, GuardName, Thunk, ConstructionVtable, GuardEncoding;
    hide FirstSpecials, Frozen, Clean, Flat, Exec;
    SpecialLetters(t, c);
    NoThunk(t, c);
    FirstSpecialsFail(t, c);
    var a := FirstSpecials(t, c).Then(ConstructionVtable(t, c));
    LaterSpecial(t, c);
    if t[c.pos] == 'T' {
      ReadIsOk(t, SpecialType(t, c, "FJ"), p, q, shown);
      After(t, a, SpecialType(t, c, "FJ"), p, q, shown);
    } else if Is2(t, c, 'G', 'R') {
      ReadIsOk(t, GuardName(t, c, 'R'), p, q, shown);
      After(t, a.Then(SpecialType(t, c, "FJ")), GuardName(t, c, 'R'), p, q, shown);
    } else {
      ReadIsOk(t, GuardEncoding(t, c), p, q, shown);
      After(t, a.Then(SpecialType(t, c, "FJ")).Then(GuardName(t, c, 'R')), GuardEncoding(t, c), p, q, shown);
    }
  }

  lemma LaterSpecial(t: CString, c: Core)
    requires Good(t, c) && !SpecialType(t, c, "VTIS").ok && !CovariantThunk(t, c).ok && !GuardName(t, c, 'V').ok
    requires !Thunk(t, c, "").ok
    ensures var a5 := FirstSpecials(t, c).Then(ConstructionVtable(t, c));
            var a6 := a5.Then(SpecialType(t, c, "FJ"));
            var a7 := a6.Then(GuardName(t, c, 'R'));
            var a8 := a7.Then(GuardEncoding(t, c));
            SpecialName(t, c) == if a5.ok then a5 else if a6.ok then a6 else if a7.ok then a7 else if a8.ok then a8
                                 else a8.Then(Thunk(t, c, "hv"))
  {
    hide SpecialType, CovariantThunk, GuardName, Thunk, ConstructionVtable, GuardEncoding, Frozen, Clean, Flat, Exec;
  }

  lemma SpecialIsGuard(t: CString, c: Core, p: nat, q: nat, shown: string)
    requires Good(t, c) && Is2(t, c, 'G', 'V') && Reads(t, Name(t, c.Skip(2)), p, q, shown)
    ensures Reads(t, SpecialName(t, c), p, q, shown)
  {
    hide Reads, Name, Frozen, Clean, Flat, Exec;
    ReadIsOk(t, Name(t, c.Skip(2)), p, q, shown);
    assert GuardName(t, c, 'V') == Name(t, c.Skip(2));
    hide SpecialType, CovariantThunk, GuardName, Thunk, ConstructionVtable, GuardEncoding;
    SpecialLetters(t, c);
    After(t, SpecialType(t, c, "VTIS").Then(CovariantThunk(t, c)), GuardName(t, c, 'V'), p, q, shown);
  }

  lemma SpecialIsCovariant(t: CString, c: Core, d: Core, e: Core, p: nat, q: nat, shown: string)
    requires Good(t, c) && Is2(t, c, 'T', 'c') && CallOffset(t, c.Skip(2)) == Pass(d) && Good(t, d)
    requires CallOffset(t, d) == Pass(e) && Good(t, e) && Reads(t, Encoding(t, e), p, q, shown)
    ensures Reads(t, SpecialName(t, c), p, q, shown)
  {
    hide Reads, Encoding, CallOffset, Frozen, Clean, Flat, Exec;
    ReadIsOk(t, Encoding(t, e), p, q, shown);
    assert CovariantThunk(t, c) == Encoding(t, e);
    hide SpecialType, CovariantThunk, GuardName, Thunk, ConstructionVtable, GuardEncoding;
    SpecialLetters(t, c);
    After(t, SpecialType(t, c, "VTIS"), CovariantThunk(t, c), p, q, shown);
  }

  lemma SpecialIsThunk(t: CString, c: Core, d: Core, p: nat, q: nat, shown: string)
    requires Good(t, c) && (Is2(t, c, 'T', 'h') || Is2(t, c, 'T', 'v')) && CallOffset(t, c.Skip(1)) == Pass(d)
    requires Good(t, d) && Reads(t, Encoding(t, d), p, q, shown)
    ensures Reads(t, SpecialName(t, c), p, q, shown)
  {
    hide Reads, Encoding, CallOffset, Frozen, Clean, Flat, Exec;
    ReadIsOk(t, Encoding(t, d), p, q, shown);
    assert Thunk(t, c, "") == Encoding(t, d);
    hide SpecialType, CovariantThunk, GuardName, Thunk, ConstructionVtable, GuardEncoding;
    SpecialLetters(t, c);
    var a := SpecialType(t, c, "VTIS").Then(CovariantThunk(t, c)).Then(GuardName(t, c, 'V'));
    After(t, a, Thunk(t, c, ""), p, q, shown);
  }

  /** TC type number _ type, where the types are read. */
  lemma VtableReads(t: CString, c: Core, py: nat, qy: nat, v: NumRes, p: nat, q: nat, shown: string)
    requires Good(t, c) && Is2(t, c, 'T', 'C') && Reads(t, Type(t, c.Skip(2)), py, qy, shown)
    requires v == Number(t, Type(t, c.Skip(2)).c) && v.ok && t[v.c.pos] == '_' && Reaches(t, Type(t, v.c.Skip(1)), p, q)
    ensures Reads(t, ConstructionVtable(t, c), p, q, shown)
  {
    hide Reads, Type, Number, Frozen, Clean, Flat, Exec;
    var y, w := Type(t, c.Skip(2)), Type(t, v.c.Skip(1));
    ReadIsOk(t, y, py, qy, shown);
    MutedBehind(t, y, w, py, qy, shown, p, q);
    ReadIsOk(t, y.Then(w.Mute()), p, q, shown);
  }

  lemma SpecialIsConstruction(t: CString, c: Core, p: nat, q: nat, shown: string)
    requires Good(t, c) && Is2(t, c, 'T', 'C') && Reads(t, ConstructionVtable(t, c), p, q, shown)
    ensures Reads(t, SpecialName(t, c), p, q, shown)
  {
    hide Reads, SpecialType, CovariantThunk, GuardName, Thunk, ConstructionVtable, GuardEncoding, FirstSpecials;
    hide Frozen, Clean, Flat, Exec;
    SpecialLetters(t, c);
    NoThunk(t, c);
    FirstSpecialsFail(t, c);
    LaterSpecial(t, c);
    ReadIsOk(t, ConstructionVtable(t, c), p, q, shown);
    After(t, FirstSpecials(t, c), ConstructionVtable(t, c), p, q, shown);
  }

  // ---------------------------------------------------------------- local names

  /** The mark that stands there, or none, ends at "p". */
  predicate MarkTo(t: CString, c: Core, p: nat) {
    Good(t, c) && Discriminator(t, c).c.pos == p && Discriminator(t, c).c.arg == c.arg
  }

  /** Z encoding E name, with a mark. */
  lemma EntityReads(t: CString, c: Core, pe: nat, qe: nat, outer: string, pn: nat, q: nat, name: string, p: nat)
    requires Good(t, c) && t[c.pos] == 'Z' && Reads(t, Encoding(t, c.Skip(1)), pe, qe, outer) && t[pe] == 'E'
    requires var n := Name(t, Encoding(t, c.Skip(1)).c.Skip(1)); Reads(t, n, pn, q, name) && MarkTo(t, n.c, p)
    ensures Reads(t, LocalEntity(t, c), p, q, outer + ("::" + name))
  {
    hide Encoding, Name, Discriminator, Adds, Frozen, Clean, Flat, Exec;
    var e := Encoding(t, c.Skip(1));
    var n := Name(t, e.c.Skip(1));
    var m := Res(true, e.c, Emit("::"));
    EmitReads(t, e.c, "::");
    Joined(t, m, n, pe, qe, "::", pn, q, name);
    Joined(t, e, m.Then(n), pe, qe, outer, pn, q, "::" + name);
    ThenTwice(t, e, n, pn, q, outer + ("::" + name));
  }

  lemma ThenTwice(t: CString, e: Res, n: Res, p: nat, q: nat, shown: string)
    requires Reads(t, e.Then(Res(true, e.c, Emit("::")).Then(n)), p, q, shown)
    ensures Reads(t, e.Do(Emit("::")).Then(n), p, q, shown)
  {
    hide Frozen, Clean, Flat;
    var a, b := e.Then(Res(true, e.c, Emit("::")).Then(n)), e.Do(Emit("::")).Then(n);
    forall o: Out ensures Exec(a.tr, o) == Exec(b.tr, o) {
    }
  }

  lemma LeftLocal(t: CString, r: Res, p: nat, q: nat, shown: string)
    requires Reads(t, r, p, q, shown) && r.c.local > 0
    ensures Reads(t, LeaveLocal(r), p, q, shown)
  {
  }

  /** The alternatives of a local name, one level deeper. */
  lemma LocalTries(t: CString, c: Core)
    requires Good(t, c) && c.local <= MAX_LEVELS
    ensures var a, b := LocalEntity(t, c.(local := c.local + 1)), LocalString(t, c.(local := c.local + 1));
            && (a.ok ==> a.c.local > 0 && LocalName(t, c) == LeaveLocal(a))
            && (!a.ok && b.ok ==> b.c.local > 0 && LocalName(t, c) == LeaveLocal(a.Then(b)))
  {
    hide LocalEntity, LocalString, Frozen, Clean, Flat, Exec;
  }

  lemma NameIsLocal(t: CString, c: Core, p: nat, q: nat, shown: string)
    requires Good(t, c) && t[c.pos] == 'Z' && Reads(t, LocalName(t, c), p, q, shown)
    ensures Reads(t, Name(t, c), p, q, shown)
  {
    hide Reads, NestedName, LocalName, UnscopedTemplateName, Frozen, Clean, Flat, Exec, Silent;
    TemplateOrSubstitutionDud(t, c);
    ReadIsOk(t, LocalName(t, c), p, q, shown);
    After(t, NestedName(t, c), LocalName(t, c), p, q, shown);
  }

  lemma LocalIsEntity(t: CString, c: Core, p: nat, q: nat, shown: string)
    requires Good(t, c) && c.local <= MAX_LEVELS && Reads(t, LocalEntity(t, c.(local := c.local + 1)), p, q, shown)
    ensures Reads(t, LocalName(t, c), p, q, shown)
  {
    hide Reads, LocalName, LocalEntity, LocalString, LeaveLocal, Frozen, Clean, Flat, Exec;
    var a := LocalEntity(t, c.(local := c.local + 1));
    ReadIsOk(t, a, p, q, shown);
    LocalTries(t, c);
    LeftLocal(t, a, p, q, shown);
  }

  /** No name begins with an 's' that no letter follows. */
  lemma NoNameAtString(t: CString, c: Core)
    requires Good(t, c) && t[c.pos] == 's' && !IsAlpha(t[c.pos + 1])
    ensures !Name(t, c).ok
  {
    hide Name, Silent;
    forall x | Good(t, x) && x.pos == c.pos ensures NoUnqualified(t, x) {
      OperatorDud(t, x);
      CtorDtorDud(t, x);
      SourceDud(t, x);
    }
    NameMisses(t, c);
  }

  /** Z encoding Es, with a mark: an entity is tried in vain first. */
  lemma StringReads(t: CString, c: Core, pe: nat, q: nat, outer: string, p: nat)
    requires Good(t, c) && t[c.pos] == 'Z' && Reads(t, Encoding(t, c.Skip(1)), pe, q, outer) && t[pe] == 'E'
    requires pe + 2 < |t| && t[pe + 1] == 's' && !IsAlpha(t[pe + 2])
    requires MarkTo(t, Encoding(t, c.Skip(1)).c.Skip(2), p)
    ensures Reads(t, LocalString(t, c), p, q, outer) && !LocalEntity(t, c).ok
  {
    hide Encoding, Name, Discriminator, Adds, Frozen, Clean, Flat, Exec;
    NoNameAtString(t, Encoding(t, c.Skip(1)).c.Skip(1));
  }

  lemma LocalIsString(t: CString, c: Core, p: nat, q: nat, shown: string)
    requires Good(t, c) && c.local <= MAX_LEVELS && !LocalEntity(t, c.(local := c.local + 1)).ok
    requires Reads(t, LocalString(t, c.(local := c.local + 1)), p, q, shown)
    ensures Reads(t, LocalName(t, c), p, q, shown)
  {
    hide Reads, LocalName, LocalEntity, LocalString, LeaveLocal, Frozen, Clean, Flat, Exec;
    var a, b := LocalEntity(t, c.(local := c.local + 1)), LocalString(t, c.(local := c.local + 1));
    ReadIsOk(t, b, p, q, shown);
    LocalTries(t, c);
    After(t, a, b, p, q, shown);
    LeftLocal(t, a.Then(b), p, q, shown);
  }
}

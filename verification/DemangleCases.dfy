/** What the grammar does at given characters, and whole names worked out from it. */
module DemangleCases {
  import opened CText
  import opened Tape
  import opened Output
  import opened Recogniser
  import opened Faithful

  // ---------------------------------------------------------------- failing without a trace

  /** Made of attempts that print nothing, not even to take it back. */
  predicate Silent(tr: Trace) {
    match tr
    case Nothing => true
    case Emit(str) => str == ""
    case Both(a, b) => Silent(a) && Silent(b)
    case Attempt(b) => Silent(b)
    case Muted(b) => Silent(b)
    case Nested(b) => Silent(b)
    case _ => false
  }

  lemma {:induction false} SilentRun(tr: Trace, o: Out)
    requires Silent(tr)
    ensures Exec(tr, o) == o
  {
    match tr
    case Both(a, b) =>
      SilentRun(a, o);
      SilentRun(b, o);
    case Attempt(b) => SilentRun(b, o);
    case Muted(b) => SilentRun(b, o.(append := false));
    case Nested(b) => SilentRun(b, o.(nest := 0));
    case _ =>
  }

  lemma ThenSilent(a: Res, b: Res)
    requires Silent(a.tr) && Silent(b.tr)
    ensures Silent(a.Then(b).tr)
  {
  }

  lemma UndoSilent(a: Res, c: Core)
    requires Silent(a.tr)
    ensures Silent(a.Undo(c).tr)
  {
  }

  /** Fails where it stands, in silence; budgets may be left raised. */
  predicate Misses(r: Res, c: Core) { !r.ok && Silent(r.tr) && r.c.pos == c.pos }

  /** The same with all budgets as before. */
  predicate Dud(r: Res, c: Core) { !r.ok && Silent(r.tr) && r.c == c }

  lemma OperatorKindsDud(t: CString, c: Core)
    requires Good(t, c) && HasChars(t, c.pos, 2)
    requires !IsLower(t[c.pos]) || (t[c.pos] != 'c' && t[c.pos] != 'v' && !IsAlpha(t[c.pos + 1]))
    ensures Dud(Conversion(t, c), c) && Dud(VendorOperator(t, c), c) && Dud(PlainOperator(t, c), c)
  {
    hide Lookup, Type, SourceName, OPERATORS;
  }

  lemma OperatorDud(t: CString, c: Core)
    requires Good(t, c)
    requires !HasChars(t, c.pos, 2) || !IsLower(t[c.pos]) || (t[c.pos] != 'c' && t[c.pos] != 'v' && !IsAlpha(t[c.pos + 1]))
    ensures Dud(OperatorName(t, c), c)
  {
    hide Conversion, VendorOperator, PlainOperator;
    if HasChars(t, c.pos, 2) {
      OperatorKindsDud(t, c);
      ThenSilent(Conversion(t, c), VendorOperator(t, c));
      ThenSilent(Conversion(t, c).Then(VendorOperator(t, c)), PlainOperator(t, c));
    }
  }

  lemma CtorDtorDud(t: CString, c: Core)
    requires Good(t, c) && t[c.pos] != 'C' && t[c.pos] != 'D'
    ensures Dud(CtorDtorName(t, c), c)
  {
  }

  lemma SourceDud(t: CString, c: Core)
    requires Good(t, c) && !IsDigit(t[c.pos]) && t[c.pos] != 'n'
    ensures Dud(SourceName(t, c), c)
  {
    assert RunEnd(t, c.pos, IsDigit) == c.pos;
  }

  /** A name of none of the four kinds starts here. */
  predicate NoUnqualified(t: CString, c: Core)
    requires Good(t, c)
  {
    Dud(OperatorName(t, c), c) && Dud(CtorDtorName(t, c), c) && Dud(SourceName(t, c), c) && t[c.pos] != 'L'
  }

  lemma UnqualifiedDud(t: CString, c: Core)
    requires Good(t, c) && NoUnqualified(t, c)
    ensures Dud(UnqualifiedName(t, c), c)
  {
    hide OperatorName, CtorDtorName, SourceName;
    var b := OperatorName(t, c).Then(CtorDtorName(t, c));
    var d := b.Then(SourceName(t, c));
    var e := d.Then(LocalSourceName(t, c));
    assert Silent(b.tr) && Silent(d.tr) && Silent(e.tr);
    assert UnqualifiedName(t, c) == e;
  }

  lemma UnscopedDud(t: CString, c: Core)
    requires Good(t, c) && NoUnqualified(t, c) && t[c.pos] != 'S'
    ensures Dud(UnscopedName(t, c), c)
  {
    hide UnqualifiedName;
    UnqualifiedDud(t, c);
  }

  lemma TemplateOrSubstitutionDud(t: CString, c: Core)
    requires Good(t, c)
    ensures t[c.pos] != 'T' ==> Dud(TemplateParam(t, c), c)
    ensures t[c.pos] != 'S' ==> Dud(Substitution(t, c), c)
    ensures t[c.pos] != 'I' ==> Dud(TemplateArgs(t, c), c)
    ensures t[c.pos] != 'N' ==> Dud(NestedName(t, c), c)
    ensures t[c.pos] != 'B' ==> Dud(AbiTags(t, c), c)
  {
  }

  /** Only a local name starts with 'Z'; its failure raises the budget. */
  lemma LocalMisses(t: CString, c: Core)
    requires Good(t, c) && t[c.pos] != 'Z'
    ensures Misses(LocalName(t, c), c)
  {
  }

  lemma NameMisses(t: CString, c: Core)
    requires Good(t, c) && t[c.pos] != 'N' && t[c.pos] != 'Z' && t[c.pos] != 'S'
    requires forall d :: Good(t, d) && d.pos == c.pos ==> NoUnqualified(t, d)
    ensures Misses(Name(t, c), c)
  {
    hide NestedName, LocalName, UnscopedName, Substitution, TemplateArgs, NoUnqualified;
    TemplateOrSubstitutionDud(t, c);
    LocalMisses(t, c);
    var d := LocalName(t, c).c;
    UnscopedDud(t, d);
    TemplateOrSubstitutionDud(t, d);
    var b := NestedName(t, c).Then(LocalName(t, c));
    var u := UnscopedName(t, d).Then(Substitution(t, d));
    assert Silent(b.tr) && Silent(u.tr);
    assert Silent(b.Then(u.Undo(d)).tr);
  }

  // ---------------------------------------------------------------- types

  /** No alternative of a type before the class names starts here. */
  predicate NoTypePrefix(t: CString, c: Core)
    requires Good(t, c)
  {
    && (var x := t[c.pos]; x != 'r' && x != 'V' && x != 'K' && x != 'U' && x != 'F' && x != 'u')
    && !IsAny(t, c, "OPRCG") && t[c.pos] != 'D' && !IsLower(t[c.pos])
  }

  lemma {:induction false} NoBuiltin(x: char, i: nat)
    requires !IsLower(x) && i <= |BUILTINS|
    ensures Lookup(BUILTINS, First(x), i) == |BUILTINS|
    decreases |BUILTINS| - i
  {
    if i < |BUILTINS| {
      assert IsLower(BUILTINS[i].first);
      NoBuiltin(x, i + 1);
    }
  }

  /** All alternatives of a type before the class names fail. */
  predicate PrefixDuds(t: CString, c: Core)
    requires Good(t, c)
  {
    && Dud(QualifiedType(t, c), c) && Dud(PointerType(t, c), c) && Dud(PackExpansion(t, c), c) && Dud(DeclType(t, c), c)
    && Dud(VendorType(t, c), c) && Dud(BuiltinType(t, c), c) && Dud(FunctionType(t, c), c)
  }

  lemma TypePrefixDud(t: CString, c: Core)
    requires Good(t, c) && NoTypePrefix(t, c)
    ensures PrefixDuds(t, c)
  {
    hide Type, SourceName, BareFunctionType, Expression, Lookup, IsAny;
    NoBuiltin(t[c.pos], 0);
  }

  lemma ArrayOrMemberDud(t: CString, c: Core)
    requires Good(t, c)
    ensures t[c.pos] != 'A' ==> Dud(ArrayType(t, c), c)
    ensures t[c.pos] != 'M' ==> Dud(PointerToMemberType(t, c), c)
  {
    hide Type, Expression;
  }

  /** The alternatives of a type before the plain ones. */
  function BeforePlain(t: CString, c: Core): Res
    requires Good(t, c)
  {
    QualifiedType(t, c).Then(PointerType(t, c)).Then(PackExpansion(t, c)).Then(DeclType(t, c)).Then(VendorType(t, c))
  }

  lemma BeforePlainDud(t: CString, c: Core)
    requires Good(t, c) && PrefixDuds(t, c)
    ensures Silent(BeforePlain(t, c).tr)
  {
    hide QualifiedType, PointerType, PackExpansion, DeclType, VendorType, BuiltinType, FunctionType;
    var a := QualifiedType(t, c).Then(PointerType(t, c));
    var b := a.Then(PackExpansion(t, c));
    ThenSilent(QualifiedType(t, c), PointerType(t, c));
    ThenSilent(a, PackExpansion(t, c));
    ThenSilent(b, DeclType(t, c));
    ThenSilent(b.Then(DeclType(t, c)), VendorType(t, c));
  }

  /** Where neither a name nor any sign of a type starts, there is no type. */
  lemma TypeDud(t: CString, c: Core)
    requires Good(t, c) && PrefixDuds(t, c) && Misses(Name(t, c), c)
    requires t[c.pos] != 'A' && t[c.pos] != 'M' && t[c.pos] != 'S' && t[c.pos] != 'T'
    ensures Dud(Type(t, c), c)
  {
    hide Name, QualifiedType, PointerType, PackExpansion, DeclType, VendorType, BuiltinType, FunctionType;
    hide ArrayType, PointerToMemberType, TemplateParam, Substitution, TemplateArgs, Silent;
    var d := Name(t, c).c;
    ArrayOrMemberDud(t, d);
    TemplateOrSubstitutionDud(t, d);
    TemplateOrSubstitutionDud(t, c);
    var e := BeforePlain(t, c);
    BeforePlainDud(t, c);
    var p := BuiltinType(t, c).Then(FunctionType(t, c));
    var q := p.Then(Name(t, c)).Then(ArrayType(t, d));
    var s := q.Then(PointerToMemberType(t, d)).Then(Substitution(t, d));
    ThenSilent(BuiltinType(t, c), FunctionType(t, c));
    ThenSilent(p, Name(t, c));
    ThenSilent(p.Then(Name(t, c)), ArrayType(t, d));
    ThenSilent(q, PointerToMemberType(t, d));
    ThenSilent(q.Then(PointerToMemberType(t, d)), Substitution(t, d));
    assert PlainType(t, c) == s;
    var u := s.Then(TemplateTemplateParam(t, d));
    ThenSilent(s, TemplateTemplateParam(t, d));
    UndoSilent(u, c);
    ThenSilent(e, u.Undo(c));
    ThenSilent(e.Then(u.Undo(c)), TemplateParam(t, c));
  }

  /** A type that starts like none of the others is the name that stands there. */
  lemma TypeIsName(t: CString, c: Core, o: Out)
    requires Good(t, c) && PrefixDuds(t, c) && Name(t, c).ok
    ensures Type(t, c).ok && Type(t, c).c == Name(t, c).c && Exec(Type(t, c).tr, o) == Exec(Name(t, c).tr, o)
  {
    hide Name, QualifiedType, PointerType, PackExpansion, DeclType, VendorType, BuiltinType, FunctionType, Exec, Silent;
    var e := BeforePlain(t, c);
    BeforePlainDud(t, c);
    var p := BuiltinType(t, c).Then(FunctionType(t, c));
    ThenSilent(BuiltinType(t, c), FunctionType(t, c));
    SilentRun(e.tr, o);
    SilentRun(p.tr, o);
    assert PlainType(t, c) == p.Then(Name(t, c));
    assert Type(t, c) == e.Then(PlainType(t, c));
  }

  lemma BareDud(t: CString, c: Core)
    requires Good(t, c) && Dud(Type(t, c), c)
    ensures Dud(BareFunctionType(t, c), c)
  {
    hide Type;
    assert TypePlus(t, c) == Type(t, c);
  }

  lemma PartDud(t: CString, c: Core)
    requires Good(t, c) && NoUnqualified(t, c) && t[c.pos] != 'S' && t[c.pos] != 'T'
    ensures Dud(PrefixPart(t, c), c)
  {
    hide TemplateParam, Substitution, UnscopedName, NoUnqualified;
    TemplateOrSubstitutionDud(t, c);
    UnscopedDud(t, c);
    assert Silent(TemplateParam(t, c).Then(Substitution(t, c)).tr);
  }

  /** The end of a text, of a group, or of a name before a clone's suffix or a version. */
  predicate Ends(t: CString, c: Core)
    requires Good(t, c)
  {
    t[c.pos] == '\0' || t[c.pos] == 'E' || t[c.pos] == '.' || t[c.pos] == '@'
  }

  lemma NoNameAtEnd(t: CString, c: Core)
    requires Good(t, c) && Ends(t, c)
    ensures NoUnqualified(t, c)
  {
    OperatorDud(t, c);
    CtorDtorDud(t, c);
    SourceDud(t, c);
  }

  lemma NoTypePrefixAtEnd(t: CString, c: Core)
    requires Good(t, c) && Ends(t, c)
    ensures PrefixDuds(t, c)
  {
    hide PrefixDuds;
    TypePrefixDud(t, c);
  }

  /** Nothing starts there. */
  lemma NothingStarts(t: CString, c: Core)
    requires Good(t, c) && Ends(t, c)
    ensures Misses(Name(t, c), c) && Dud(Type(t, c), c) && Dud(BareFunctionType(t, c), c) && Dud(PrefixPart(t, c), c)
  {
    hide Name, Type, BareFunctionType, PrefixPart, NoUnqualified, PrefixDuds;
    forall d | Good(t, d) && d.pos == c.pos ensures NoUnqualified(t, d) { NoNameAtEnd(t, d); }
    NoTypePrefixAtEnd(t, c);
    NameMisses(t, c);
    TypeDud(t, c);
    BareDud(t, c);
    PartDud(t, c);
  }

  // ---------------------------------------------------------------- source names

  lemma SourceStarts(t: CString, c: Core)
    requires Good(t, c) && SourceName(t, c).ok
    ensures IsDigit(t[c.pos]) || (t[c.pos] == 'n' && IsDigit(t[c.pos + 1]))
  {
    var p := if Is(t, c, 'n') then c.pos + 1 else c.pos;
    assert Number(t, c).ok ==> RunEnd(t, p, IsDigit) != p;
  }

  /** Budgets do not matter to a source name. */
  lemma SourceAnywhere(t: CString, c: Core, d: Core)
    requires Good(t, c) && Good(t, d) && d.pos == c.pos
    ensures SourceName(t, d) == SourceName(t, c).(c := d.(pos := SourceName(t, c).c.pos))
  {
    hide RunEnd, Decimal, IdentifierText;
    assert Number(t, d) == Number(t, c).(c := d.(pos := Number(t, c).c.pos));
  }

  /** Where a source name stands, that is what an unqualified name is. */
  lemma UnscopedIsSource(t: CString, c: Core, o: Out)
    requires Good(t, c) && SourceName(t, c).ok && t[SourceName(t, c).c.pos] != 'B'
    ensures var u, s := UnscopedName(t, c), SourceName(t, c);
            u.ok && u.c == s.c && Exec(u.tr, o) == Exec(s.tr, o)
  {
    hide OperatorName, CtorDtorName, SourceName, AbiTags, Exec;
    var s := SourceName(t, c);
    SourceStarts(t, c);
    OperatorDud(t, c);
    CtorDtorDud(t, c);
    TemplateOrSubstitutionDud(t, s.c);
    var b := OperatorName(t, c).Then(CtorDtorName(t, c));
    assert Silent(b.tr);
    SilentRun(b.tr, o);
    SilentRun(AbiTags(t, s.c).tr, Exec(s.tr, o));
    assert UnqualifiedName(t, c) == Tagged(t, b.Then(s));
  }

  /** A name that is neither nested nor local is tried once as a template's, taken back, and printed. */
  lemma NameIsUnscoped(t: CString, c: Core, o: Out)
    requires Good(t, c) && t[c.pos] != 'N' && t[c.pos] != 'Z'
    requires var u := UnscopedName(t, LocalName(t, c).c); u.ok && t[u.c.pos] != 'I'
    ensures var n, u := Name(t, c), UnscopedName(t, LocalName(t, c).c);
            n.ok && n.c == u.c && Exec(n.tr, o) == Exec(u.tr, Exec(u.tr, o).Rollback(o))
  {
    hide NestedName, LocalName, UnscopedName, TemplateArgs, Exec, Out.Rollback;
    TemplateOrSubstitutionDud(t, c);
    LocalMisses(t, c);
    var a := NestedName(t, c).Then(LocalName(t, c));
    var d := a.c;
    var u := UnscopedName(t, d);
    TemplateOrSubstitutionDud(t, u.c);
    var v := u.Then(TemplateArgs(t, u.c));
    assert Silent(a.tr);
    SilentRun(a.tr, o);
    SilentRun(TemplateArgs(t, u.c).tr, Exec(u.tr, o));
    assert Name(t, c) == a.Then(v.Undo(d)).Then(u);
  }

  lemma NameIsSource(t: CString, c: Core, o: Out)
    requires Good(t, c) && SourceName(t, c).ok && Ends(t, SourceName(t, c).c)
    ensures var n, s := Name(t, c), SourceName(t, c);
            n.ok && n.c.pos == s.c.pos && Exec(n.tr, o) == Exec(s.tr, Exec(s.tr, o).Rollback(o))
  {
    hide LocalName, UnscopedName, SourceName, Exec, Out.Rollback, Name;
    SourceStarts(t, c);
    LocalMisses(t, c);
    var d := LocalName(t, c).c;
    SourceAnywhere(t, c, d);
    UnscopedIsSource(t, d, o);
    UnscopedIsSource(t, d, Exec(SourceName(t, c).tr, o).Rollback(o));
    NameIsUnscoped(t, c, o);
  }

  // ---------------------------------------------------------------- data names

  /** A name without a signature behind it is read, taken back for want of one, and read again. */
  lemma EncodingIsData(t: CString, c: Core, o: Out)
    requires Good(t, c) && Name(t, c).ok && Ends(t, Name(t, c).c)
    ensures var e, n := Encoding(t, c), Name(t, c);
            e.ok && e.c == n.c && Exec(e.tr, o) == Exec(n.tr, Exec(n.tr, o).Rollback(o))
  {
    hide Name, BareFunctionType, Exec, Out.Rollback;
    var n := Name(t, c);
    NothingStarts(t, n.c);
    var f := n.Then(BareFunctionType(t, n.c));
    SilentRun(BareFunctionType(t, n.c).tr, Exec(n.tr, o));
    assert Encoding(t, c) == f.Undo(c).Then(n);
  }

  /** "t" is "_Z" and a name without a signature, and nothing else. */
  predicate IsData(t: CString) {
    Is2(t, ENTRY, '_', 'Z') && Name(t, ENTRY.Skip(2)).ok && t[Name(t, ENTRY.Skip(2)).c.pos] == '\0'
  }

  lemma TopLevelIsData(t: CString, o: Out)
    requires IsData(t)
    ensures var n := Name(t, ENTRY.Skip(2));
            TopLevel(t).ok && Exec(TopLevel(t).tr, o) == Exec(n.tr, Exec(n.tr, o).Rollback(o))
  {
    hide Name, Encoding, Exec;
    EncodingIsData(t, ENTRY.Skip(2), o);
    assert TopLevel(t) == Encoding(t, ENTRY.Skip(2));
  }

  lemma SourcePrints(t: CString, c: Core)
    requires Good(t, c) && SourceName(t, c).ok
    ensures SourceName(t, c).tr.Emit?
  {
  }

  /** Printing after taking the same back: only what is behind the text may differ. */
  lemma PrintAgain(o: Out, str: string)
    requires o.append
    ensures var r := o.Print(str).Rollback(o).Print(str);
            && r.text == o.Print(str).text && r.append && (str == "" ==> r == o) && (str != "" ==> r.sealed)
  {
    hide Tape.Print;
  }

  lemma BackAgain(r: Out, o: Out)
    ensures r.Rollback(o).text == o.text && r.Rollback(o).append == o.append && r.Rollback(o).prev == o.prev
    ensures r.Rollback(o).tape.len == o.tape.len && (!o.sealed ==> !r.Rollback(o).sealed)
    ensures r == o ==> r.Rollback(o) == o
  {
  }

  /** "t" is "_Z" and a source name, and nothing else. */
  predicate IsBareSource(t: CString) {
    Is2(t, ENTRY, '_', 'Z') && SourceName(t, ENTRY.Skip(2)).ok && t[SourceName(t, ENTRY.Skip(2)).c.pos] == '\0'
  }

  /** A data name that is a source name is terminated if and only if it is not empty; an empty one writes nothing. */
  lemma BareSourceIsSealed(t: CString, bytes: string, behind: nat -> char)
    requires IsBareSource(t)
    ensures SourceName(t, ENTRY.Skip(2)).tr.Emit?
    ensures var o, str := Exec(TopLevel(t).tr, Start(bytes, behind)), SourceName(t, ENTRY.Skip(2)).tr.str;
            && TopLevel(t).ok && o.text == str && (o.sealed <==> str != "")
            && (str == "" ==> o == Start(bytes, behind))
  {
    hide SourceName, Name, TopLevel, Out.Print, Out.Rollback;
    var c, o := ENTRY.Skip(2), Start(bytes, behind);
    SourcePrints(t, c);
    var n, str := Name(t, c), SourceName(t, c).tr.str;
    NameIsSource(t, c, o);
    TopLevelIsData(t, o);
    PrintAgain(o, str);
    var once := Exec(n.tr, o);
    var again := once.Rollback(o);
    BackAgain(once, o);
    NameIsSource(t, c, again);
    PrintAgain(again, str);
    SameText(again, o, str);
  }

  lemma SameText(a: Out, b: Out, str: string)
    requires a.text == b.text == "" && a.append && b.append
    ensures a.Print(str).text == str
  {
    hide Tape.Print;
  }

  // ---------------------------------------------------------------- nested names

  /** Arguments that fail are read with append off: nothing is written for them at all. */
  lemma FailedArgsWriteNothing(t: CString, c: Core, o: Out)
    requires Good(t, c) && !TemplateArgs(t, c).ok
    ensures Exec(TemplateArgs(t, c).tr, o) == o
  {
    hide TemplateArgPlus;
    if Is(t, c, 'I') {
      var s := TemplateArgPlus(t, c.Skip(1));
      MutedKeeps(s.tr, o.(append := false));
    }
  }

  lemma RetractedSeals(b: Trace, o: Out)
    requires Frozen(b) && o.append
    ensures var r := Exec(Retracted(b), o);
            r.append && r.nest == o.nest && (o.nest >= 1 ==> r.sealed)
  {
    hide Tape.Print;
    AppendKept(b, o.Separate());
    FrozenKeeps(b, o.Separate());
    assert o.nest >= 1 ==> |o.Separate().text| >= 2;
  }

  /** One component: the nest level steps up by one, with the wrap of a short. */
  lemma ComponentRuns(t: CString, c: Core, o: Out)
    requires Good(t, c) && PrefixPart(t, c).ok && o.append && 0 <= o.nest < SHORT_MAX
    ensures var r := Exec(Res(true, c, Separator).Then(PrefixPart(t, c)).Do(Deeper).tr, o);
            r.append && r.nest == o.nest + 1
  {
    hide PrefixPart, Tape.Print;
    var a := PrefixPart(t, c);
    FlatKeeps(a.tr, o.Separate());
    AppendKept(a.tr, o.Separate());
  }

  /**
   * After the prefix loop the level counts the components that were read since, and below the first one the text is
   * terminated, by the last separator that was taken back.
   */
  lemma {:induction false} PrefixSeals(t: CString, c: Core, some: bool, o: Out)
    requires Good(t, c) && o.append && 0 <= o.nest && o.nest + (|t| - c.pos) <= SHORT_MAX
    ensures var p := Prefix(t, c, some);
            var r := Exec(p.tr, o);
            && r.append && o.nest <= r.nest <= o.nest + (p.c.pos - c.pos)
            && (!some && p.c.pos > c.pos ==> r.nest > o.nest) && (r.nest >= 1 ==> r.sealed)
    decreases |t| - c.pos
  {
    hide PrefixPart, TemplateArgs, Exec, Out.Separate, Out.Cancel;
    var a := PrefixPart(t, c);
    if a.ok {
      ComponentRuns(t, c, o);
      var b := Res(true, c, Separator).Then(a).Do(Deeper);
      PrefixSeals(t, a.c, true, Exec(b.tr, o));
    } else {
      RetractedSeals(a.tr, o);
      if some {
        var b := Exec(Retracted(a.tr), o);
        var d := TemplateArgs(t, a.c);
        if d.ok {
          FlatKeeps(d.tr, b);
          AppendKept(d.tr, b);
          PrefixSeals(t, d.c, false, Exec(d.tr, b));
        } else {
          FailedArgsWriteNothing(t, a.c, b);
        }
      }
    }
  }

  /** A nested name has a component: it does not end right behind its qualifiers. */
  predicate HasComponent(t: CString, c: Core)
    requires Good(t, c) && NestedName(t, c).ok
  {
    t[CVQualifiers(t, c.Skip(1)).c.pos] != 'E'
  }

  lemma PrefixReads(t: CString, c: Core)
    requires Good(t, c)
    ensures Prefix(t, c, false).c.pos > c.pos <==> PrefixPart(t, c).ok
  {
    hide PrefixPart, TemplateArgs, Exec, Clean, Flat, Frozen;
  }

  lemma NestedEnds(t: CString, c: Core)
    requires Good(t, c) && NestedName(t, c).ok
    ensures t[Prefix(t, CVQualifiers(t, c.Skip(1)).c, false).c.pos] == 'E'
  {
    hide CVQualifiers, Prefix, Exec, Clean, Flat, Frozen;
  }

  lemma NoPartAtEnd(t: CString, c: Core)
    requires Good(t, c) && t[c.pos] == 'E'
    ensures !PrefixPart(t, c).ok
  {
    hide PrefixPart, Silent;
    NothingStarts(t, c);
  }

  /** One character decides whether the prefix of a nested name reads anything. */
  lemma ComponentIsRead(t: CString, c: Core)
    requires Good(t, c) && NestedName(t, c).ok
    ensures var q := CVQualifiers(t, c.Skip(1)).c; HasComponent(t, c) <==> Prefix(t, q, false).c.pos > q.pos
  {
    hide CVQualifiers, PrefixPart, Prefix, NestedName, Exec, Clean, Flat, Frozen, Silent;
    var q := CVQualifiers(t, c.Skip(1)).c;
    PrefixReads(t, q);
    NestedEnds(t, c);
    if t[q.pos] == 'E' { NoPartAtEnd(t, q); }
  }

  lemma EmptyPrefix(t: CString, c: Core, o: Out)
    requires Good(t, c) && Prefix(t, c, false).c.pos == c.pos && t[c.pos] == 'E' && o.nest == 0
    ensures Exec(Prefix(t, c, false).tr, o) == o
  {
    hide PrefixPart;
    NothingStarts(t, c);
    SilentRun(PrefixPart(t, c).tr, o);
  }

  /** A nested name leaves a terminated text if and only if it has a component or there was one before. */
  lemma NestedIsSealed(t: CString, c: Core, o: Out)
    requires Good(t, c) && NestedName(t, c).ok && o.append && |t| <= SHORT_MAX
    ensures var r := Exec(NestedName(t, c).tr, o);
            r.append && (r.sealed <==> HasComponent(t, c) || o.sealed)
  {
    hide CVQualifiers, Prefix, Exec;
    ComponentIsRead(t, c);
    var q := CVQualifiers(t, c.Skip(1));
    var inner := o.(nest := 0);
    PrefixSeals(t, q.c, false, inner);
    var p := Prefix(t, q.c, false);
    assert NestedName(t, c) == p.Nest().Eat(1);
    if p.c.pos == q.c.pos { EmptyPrefix(t, q.c, inner); }
  }

  /** "t" is "_Z" and a nested name, and nothing else. */
  predicate IsNestedData(t: CString) {
    && Is2(t, ENTRY, '_', 'Z') && NestedName(t, ENTRY.Skip(2)).ok
    && t[NestedName(t, ENTRY.Skip(2)).c.pos] == '\0'
  }

  /** A nested data name ends terminated if and only if it has a component; up to 32767 characters, behind which
      nest_level may wrap. */
  lemma NestedDataIsSealed(t: CString, bytes: string, behind: nat -> char)
    requires IsNestedData(t) && |t| <= SHORT_MAX
    ensures TopLevel(t).ok
    ensures Exec(TopLevel(t).tr, Start(bytes, behind)).sealed <==> HasComponent(t, ENTRY.Skip(2))
  {
    hide NestedName, HasComponent, TopLevel, Exec;
    var c, o := ENTRY.Skip(2), Start(bytes, behind);
    assert Name(t, c) == NestedName(t, c);
    TopLevelIsData(t, o);
    NestedIsSealed(t, c, o);
    NestedIsSealed(t, c, Exec(NestedName(t, c).tr, o).Rollback(o));
  }

  // ---------------------------------------------------------------- whole names

  lemma ZeroLength(t: CString, c: Core)
    requires Good(t, c) && t[c.pos] == '0' && !IsDigit(t[c.pos + 1])
    ensures SourceName(t, c).ok && SourceName(t, c).c.pos == c.pos + 1 && SourceName(t, c).tr == Emit("")
  {
    assert RunEnd(t, c.pos, IsDigit) == c.pos + 1;
    assert t[c.pos..c.pos + 1] == "0" && Decimal("0") == 0;
  }

  /** "_Z0" is accepted and writes nothing at all: the buffer is not even terminated. */
  lemma EmptyName(t: CString, bytes: string, behind: nat -> char)
    requires t == "_Z0\0"
    ensures TopLevel(t).ok && Exec(TopLevel(t).tr, Start(bytes, behind)) == Start(bytes, behind)
  {
    hide SourceName, TopLevel, Exec;
    ZeroLength(t, ENTRY.Skip(2));
    BareSourceIsSealed(t, bytes, behind);
  }

  /** An empty source name, as a name and as an encoding, prints nothing. */
  lemma EmptyEncoding(t: CString, c: Core, o: Out)
    requires Good(t, c) && t[c.pos] == '0' && t[c.pos + 1] == 'E'
    ensures Encoding(t, c).ok && Encoding(t, c).c.pos == c.pos + 1 && Exec(Encoding(t, c).tr, o) == o
  {
    hide SourceName, Name, Encoding, Out.Rollback;
    ZeroLength(t, c);
    NameIsSource(t, c, o);
    BackAgain(o, o);
    EncodingIsData(t, c, o);
  }

  /** "_ZcvZ0Es", the name of a conversion to a local string's type. */
  predicate IsLeftover(t: CString) {
    && |t| == 9 && t[0] == '_' && t[1] == 'Z' && t[2] == 'c' && t[3] == 'v'
    && t[4] == 'Z' && t[5] == '0' && t[6] == 'E' && t[7] == 's' && t[8] == '\0'
  }

  /** "Z0Es" at the end of the text: a string in a function without a name. */
  predicate IsEmptyLocal(t: CString, c: Core)
    requires Good(t, c)
  {
    && c.pos + 5 == |t| && t[c.pos] == 'Z' && t[c.pos + 1] == '0' && t[c.pos + 2] == 'E' && t[c.pos + 3] == 's'
  }

  lemma NoNameAtLast(t: CString, c: Core)
    requires Good(t, c) && c.pos + 2 == |t| && t[c.pos] == 's'
    ensures Misses(Name(t, c), c)
  {
    hide Name;
    forall x | Good(t, x) && x.pos == c.pos ensures NoUnqualified(t, x) {
      OperatorDud(t, x);
      CtorDtorDud(t, x);
      SourceDud(t, x);
    }
    NameMisses(t, c);
  }

  /** There an entity is tried and gives up behind its "::" ... */
  lemma EmptyLocalEntity(t: CString, c: Core, o: Out)
    requires Good(t, c) && IsEmptyLocal(t, c)
    ensures var r := LocalEntity(t, c);
            !r.ok && r.c == c && Exec(r.tr, o) == o.Print("::").Rollback(o)
  {
    hide Encoding, Name, Out.Print, Out.Rollback, Exec;
    EmptyEncoding(t, c.Skip(1), o);
    var e := Encoding(t, c.Skip(1));
    var d := e.c.Skip(1);
    NoNameAtLast(t, d);
    SilentRun(Name(t, d).tr, o.Print("::"));
    EmitRun("::", o);
    var n := e.Do(Emit("::")).Then(Name(t, d));
    assert LocalEntity(t, c) == n.Undo(c);
  }

  /** ... then it is a string. */
  lemma EmptyLocalString(t: CString, c: Core, o: Out)
    requires Good(t, c) && IsEmptyLocal(t, c)
    ensures var r := LocalString(t, c);
            r.ok && r.c.pos == c.pos + 4 && Exec(r.tr, o) == o
  {
    hide Encoding, Exec;
    EmptyEncoding(t, c.Skip(1), o);
  }

  lemma EmptyLocal(t: CString, c: Core, o: Out)
    requires Good(t, c) && IsEmptyLocal(t, c) && c.local <= MAX_LEVELS
    ensures var r := LocalName(t, c);
            r.ok && r.c.pos == c.pos + 4 && Exec(r.tr, o) == o.Print("::").Rollback(o)
  {
    hide LocalEntity, LocalString, Out.Print, Out.Rollback, Exec;
    var c1 := c.(local := c.local + 1);
    EmptyLocalEntity(t, c1, o);
    EmptyLocalString(t, c1, o.Print("::").Rollback(o));
  }

  lemma EmitRun(str: string, o: Out)
    ensures Exec(Emit(str), o) == o.Print(str)
  {
  }

  /** What the whole name prints, from any state that prints. */
  function LeftoverRun(o: Out): Out {
    var p := o.Print("operator ");
    var q := p.(nest := 0);
    q.Print("::").Rollback(q).(nest := p.nest)
  }

  lemma LeftoverUnscoped(t: CString, c: Core, o: Out)
    requires IsLeftover(t) && Good(t, c) && c.pos == 2 && c.local <= MAX_LEVELS
    ensures var u := UnscopedName(t, c); u.ok && u.c.pos == 8 && Exec(u.tr, o) == LeftoverRun(o)
  {
    hide LocalName, Name, Type, Out.Print, Out.Rollback, Exec;
    var d := c.Skip(2);
    var q := o.Print("operator ").(nest := 0);
    EmptyLocal(t, d, q);
    LeftoverType(t, d, q);
    EmitRun("operator ", o);
    assert Conversion(t, c) == Res(true, d, Emit("operator ")).Then(Type(t, d).Nest());
    assert OperatorName(t, c) == Conversion(t, c);
  }

  lemma LeftoverType(t: CString, c: Core, o: Out)
    requires IsLeftover(t) && Good(t, c) && c.pos == 4 && LocalName(t, c).ok
    ensures Type(t, c).ok && Type(t, c).c == LocalName(t, c).c && Exec(Type(t, c).tr, o) == Exec(LocalName(t, c).tr, o)
  {
    hide LocalName, Type, NestedName, Exec, PrefixDuds;
    TypePrefixDud(t, c);
    TemplateOrSubstitutionDud(t, c);
    SilentRun(NestedName(t, c).tr, o);
    assert Name(t, c) == NestedName(t, c).Then(LocalName(t, c));
    TypeIsName(t, c, o);
  }

  lemma LeftoverName(t: CString, o: Out)
    requires IsLeftover(t)
    ensures IsData(t) && Exec(Name(t, ENTRY.Skip(2)).tr, o) == LeftoverRun(LeftoverRun(o).Rollback(o))
  {
    hide Name, UnscopedName, LocalName, Out.Print, Out.Rollback, Exec, LeftoverRun;
    var c := ENTRY.Skip(2);
    LocalMisses(t, c);
    LocalRaises(t, c);
    var d := LocalName(t, c).c;
    LeftoverUnscoped(t, d, o);
    LeftoverUnscoped(t, d, LeftoverRun(o).Rollback(o));
    NameIsUnscoped(t, c, o);
  }

  lemma LocalRaises(t: CString, c: Core)
    requires Good(t, c) && c.local == 0 && !LocalName(t, c).ok
    ensures LocalName(t, c).c.local == 1
  {
  }

  /** At the beginning of a buffer of "n" bytes, whatever they are. */
  predicate Fresh(o: Out, n: nat) {
    o.text == "" && o.append && o.tape.cur == 0 && !o.tape.overflowed && |o.tape.bytes| == n
  }

  lemma FreshAgain(o: Out, n: nat)
    requires Fresh(o, n)
    ensures Fresh(LeftoverRun(o).Rollback(o), n)
  {
    hide Tape.Print;
    var q := o.Print("operator ").(nest := 0);
    PrintGrows(o.tape, Bytes("operator "), 9);
    PrintGrows(q.tape, Bytes("::"), 2);
  }

  /** The abandoned separator stays in the buffer, behind a text that is not terminated any more. */
  lemma LeftoverShows(o: Out, n: nat)
    requires Fresh(o, n) && n >= 12
    ensures var r := LeftoverRun(o);
            && r.text == "operator " && !r.sealed && !r.tape.overflowed
            && r.tape.cur == 9 && |r.tape.bytes| == n && r.tape.bytes[..12] == "operator ::\0"
  {
    hide Tape.Print;
    var str := "operator ";
    var q := o.Print(str).(nest := 0);
    PrintGrows(o.tape, Bytes(str), 9);
    PrintExact(o.tape, Bytes(str), str);
    PrintGrows(q.tape, Bytes("::"), 2);
    PrintExact(q.tape, Bytes("::"), "::");
    var bytes := q.Print("::").tape.bytes;
    assert q.tape.bytes[..9] == o.tape.bytes[..0] + "" + str == str;
    assert bytes[..11] == q.tape.bytes[..9] + "" + "::" == str + "::";
    assert bytes[..12] == bytes[..11] + [bytes[11]];
  }

  /**
   * "_ZcvZ0Es" is accepted with the text "operator ", but an attempt at a local entity has overwritten its
   * terminator: read as a C string, a buffer of twelve bytes or more shows "operator ::".
   */
  lemma LeftoverText(t: CString, bytes: string, behind: nat -> char)
    requires t == "_ZcvZ0Es\0" && |bytes| >= 12
    ensures var o := Exec(TopLevel(t).tr, Start(bytes, behind));
            && TopLevel(t).ok && o.text == "operator " && !o.tape.overflowed
            && |o.tape.bytes| == |bytes| && o.tape.bytes[..12] == "operator ::\0"
  {
    hide Name, TopLevel, Exec, LeftoverRun, Out.Rollback;
    var o, n := Start(bytes, behind), |bytes|;
    LeftoverName(t, o);
    TopLevelIsData(t, o);
    FreshAgain(o, n);
    var twice := LeftoverRun(o).Rollback(o);
    LeftoverTwice(t, o, twice, n);
  }

  lemma LeftoverTwice(t: CString, o: Out, once: Out, n: nat)
    requires IsLeftover(t) && Fresh(o, n) && Fresh(once, n) && n >= 12 && once == LeftoverRun(o).Rollback(o)
    ensures var r := Exec(Name(t, ENTRY.Skip(2)).tr, Exec(Name(t, ENTRY.Skip(2)).tr, o).Rollback(o));
            && r.text == "operator " && !r.tape.overflowed
            && |r.tape.bytes| == n && r.tape.bytes[..12] == "operator ::\0"
  {
    hide Name, Exec, LeftoverRun;
    LeftoverName(t, o);
    LeftoverShows(once, n);
    var again := LeftoverRun(once).Rollback(o);
    LeftoverName(t, again);
    FreshAgain(again, n);
    LeftoverShows(LeftoverRun(again).Rollback(again), n);
  }
}

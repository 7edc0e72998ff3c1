/** Names without a signature: which of them end terminated, and how much more room than their text they need. */
module DemangleData {
  import opened CText
  import opened Tape
  import opened Output
  import opened Recogniser
  import opened Faithful
  import opened DemangleCases

  // ---------------------------------------------------------------- what a name of one word prints

  lemma PrintSeals(o: Out, str: string)
    requires o.append
    ensures var r := o.Print(str);
            r.append && (str != "" ==> r.sealed) && (str == "" ==> r == o) && (o.sealed ==> r.sealed)
    ensures var r := o.PrintPrev(); r.append && (o.prev != "" ==> r.sealed) && (o.sealed ==> r.sealed)
    ensures o.prev == "" && o.tape.len <= 0 ==> o.PrintPrev() == o
  {
    hide Tape.Print;
  }

  /** The source name at "p" is there, but not empty. */
  predicate IsWord(t: CString, p: nat)
    requires p < |t|
  {
    SourceName(t, Core(p, 0, 0, 0)).tr != Emit("")
  }

  /** What stands at "p" prints something: a word, "~", an operator, or, as a constructor, the name before it. */
  predicate Prints(t: CString, p: nat, prev: string)
    requires p < |t|
  {
    if t[p] == 'C' then prev != ""
    else if t[p] == 'D' then true
    else if t[p] == 'L' then IsWord(t, p + 1)
    else if t[p] == 'v' && IsDigit(t[p + 1]) then IsWord(t, p + 2)
    else if IsLower(t[p]) && IsAlpha(t[p + 1]) then true
    else IsWord(t, p)
  }

  /** Whether an output goes on sealed, or nothing happened to it. */
  ghost predicate SealsOrStays(o: Out, r: Out, prints: bool) {
    r.append && (if prints then r.sealed else r == o)
  }

  lemma WordPrints(t: CString, c: Core, o: Out)
    requires Good(t, c) && SourceName(t, c).ok && o.append
    ensures SealsOrStays(o, Exec(SourceName(t, c).tr, o), IsWord(t, c.pos))
  {
    hide SourceName, Out.Print;
    SourceAnywhere(t, c, Core(c.pos, 0, 0, 0));
    SourcePrints(t, c);
    PrintSeals(o, SourceName(t, c).tr.str);
  }

  lemma VendorPrints(t: CString, c: Core, o: Out)
    requires Good(t, c) && o.append
    ensures var v := VendorOperator(t, c);
            if v.ok
            then t[c.pos] == 'v' && IsDigit(t[c.pos + 1]) && SealsOrStays(o, Exec(v.tr, o), IsWord(t, c.pos + 2))
            else Dud(v, c)
  {
    hide SourceName, IsWord, Exec;
    var v := VendorOperator(t, c);
    if v.ok {
      WordPrints(t, c.Skip(2), o);
    } else {
      FailedSource(t, c);
    }
  }

  lemma FailedSource(t: CString, c: Core)
    requires Good(t, c) && !VendorOperator(t, c).ok
    ensures Dud(VendorOperator(t, c), c)
  {
  }

  lemma PlainPrints(t: CString, c: Core, o: Out)
    requires Good(t, c) && HasChars(t, c.pos, 2) && o.append
    ensures var p := PlainOperator(t, c);
            if p.ok then IsLower(t[c.pos]) && IsAlpha(t[c.pos + 1]) && SealsOrStays(o, Exec(p.tr, o), true)
            else Dud(p, c)
  {
    hide Out.Print, OPERATORS;
    var p := PlainOperator(t, c);
    if p.ok {
      var name: Text := OPERATORS[Lookup(OPERATORS, Pair(t[c.pos], t[c.pos + 1]), 0)].name;
      OperatorRun(name, o);
      PrintSeals(o, "operator");
      PrintSeals(o.Print("operator"), " ");
      PrintSeals(o.Print("operator"), name);
      PrintSeals(o.Print("operator").Print(" "), name);
    }
  }

  /** An operator that is no conversion prints, unless it is a vendor's without a name; a failing one is silent. */
  lemma OperatorPrints(t: CString, c: Core, o: Out)
    requires Good(t, c) && o.append && !Is2(t, c, 'c', 'v')
    ensures var a := OperatorName(t, c);
            if a.ok then t[c.pos] != 'C' && t[c.pos] != 'D' && t[c.pos] != 'L' &&
                         SealsOrStays(o, Exec(a.tr, o), Prints(t, c.pos, o.prev))
            else Dud(a, c)
  {
    hide VendorOperator, PlainOperator, IsWord, Exec, SealsOrStays;
    if HasChars(t, c.pos, 2) {
      assert Conversion(t, c) == Fail(c);
      SilentRun(Nothing, o);
      VendorPrints(t, c, o);
      var v := Fail(c).Then(VendorOperator(t, c));
      if !v.ok {
        SilentRun(VendorOperator(t, c).tr, o);
        PlainPrints(t, c, o);
        ThenSilent(Fail(c), VendorOperator(t, c));
        if !PlainOperator(t, c).ok { ThenSilent(v, PlainOperator(t, c)); }
        assert OperatorName(t, c) == v.Then(PlainOperator(t, c));
      } else {
        assert OperatorName(t, c) == v;
      }
    }
  }

  /** Tags are read with append off. */
  lemma TagsWriteNothing(t: CString, c: Core, o: Out)
    requires Good(t, c)
    ensures Exec(AbiTags(t, c).tr, o) == o
  {
    hide AbiTagPlus;
    var s := AbiTagPlus(t, c);
    MutedKeeps(s.tr, o.(append := false));
    FlatKeeps(s.tr, o.(append := false));
  }

  lemma TaggedRun(t: CString, n: Res, o: Out)
    requires Good(t, n.c)
    ensures Tagged(t, n).ok && Exec(Tagged(t, n).tr, o) == Exec(n.tr, o)
  {
    hide AbiTags, Exec;
    TagsWriteNothing(t, n.c, Exec(n.tr, o));
  }

  lemma CtorDtorPrints(t: CString, c: Core, o: Out)
    requires Good(t, c) && o.append && (o.prev == "" ==> o.tape.len <= 0)
    ensures var d := CtorDtorName(t, c);
            if d.ok
            then (t[c.pos] == 'C' || t[c.pos] == 'D') && SealsOrStays(o, Exec(d.tr, o), Prints(t, c.pos, o.prev))
            else Dud(d, c)
  {
    hide IsWord, Out.Print, Out.PrintPrev;
    PrintSeals(o, "~");
    PrintSeals(o.Print("~"), "");
  }

  /** A name of one word that is no conversion prints as its first characters say, or leaves the output as it was. */
  lemma UnqualifiedPrints(t: CString, c: Core, o: Out)
    requires Good(t, c) && UnqualifiedName(t, c).ok && o.append && (o.prev == "" ==> o.tape.len <= 0)
    requires !Is2(t, c, 'c', 'v')
    ensures SealsOrStays(o, Exec(UnqualifiedName(t, c).tr, o), Prints(t, c.pos, o.prev))
  {
    hide OperatorName, CtorDtorName, Words, AbiTags, Exec, IsWord, Tagged, SealsOrStays;
    OperatorPrints(t, c, o);
    var a := OperatorName(t, c);
    if !a.ok {
      SilentRun(a.tr, o);
      CtorDtorPrints(t, c, o);
      var b := a.Then(CtorDtorName(t, c));
      if !b.ok {
        ThenSilent(a, CtorDtorName(t, c));
        SilentRun(b.tr, o);
        UnqualifiedIsWord(t, c);
        WordsPrint(t, c, b, o);
        TaggedRun(t, Words(t, c, b), o);
      }
    }
  }

  lemma LocalWordPrints(t: CString, c: Core, o: Out)
    requires Good(t, c) && LocalSourceName(t, c).ok && o.append
    ensures t[c.pos] == 'L' && SealsOrStays(o, Exec(LocalSourceName(t, c).tr, o), IsWord(t, c.pos + 1))
  {
    hide SourceName, Exec, IsWord, SealsOrStays;
    WordPrints(t, c.Skip(1), o);
  }

  /** The two kinds of words, behind attempts at the others. */
  function Words(t: CString, c: Core, b: Res): Res
    requires Good(t, c)
  {
    if SourceName(t, c).ok then b.Then(SourceName(t, c)) else b.Then(SourceName(t, c)).Then(LocalSourceName(t, c))
  }

  lemma WordsPrint(t: CString, c: Core, b: Res, o: Out)
    requires Good(t, c) && Exec(b.tr, o) == o && o.append && Words(t, c, b).ok
    ensures SealsOrStays(o, Exec(Words(t, c, b).tr, o), Prints(t, c.pos, o.prev))
  {
    hide SourceName, LocalSourceName, Exec, IsWord, SealsOrStays;
    if SourceName(t, c).ok {
      SourceStarts(t, c);
      WordPrints(t, c, o);
    } else {
      FailedWord(t, c);
      SilentRun(SourceName(t, c).tr, o);
      LocalWordPrints(t, c, o);
    }
  }

  lemma UnqualifiedIsWord(t: CString, c: Core)
    requires Good(t, c) && Dud(OperatorName(t, c), c) && Dud(CtorDtorName(t, c), c) && UnqualifiedName(t, c).ok
    ensures var w := Words(t, c, OperatorName(t, c).Then(CtorDtorName(t, c)));
            w.ok && Good(t, w.c) && UnqualifiedName(t, c) == Tagged(t, w)
  {
    hide OperatorName, CtorDtorName, SourceName, LocalSourceName, Exec, Tagged, Silent, Clean, Flat, Frozen;
    if !SourceName(t, c).ok { FailedWord(t, c); }
  }

  lemma FailedWord(t: CString, c: Core)
    requires Good(t, c) && !SourceName(t, c).ok
    ensures Silent(SourceName(t, c).tr) && SourceName(t, c).c == c
  {
  }

  /** The unscoped name at "p" prints: behind "St" always. */
  predicate UnscopedPrints(t: CString, p: nat, prev: string)
    requires p < |t|
  {
    t[p] == 'S' || Prints(t, p, prev)
  }

  /** A conversion operator, perhaps behind "St". */
  predicate IsConversion(t: CString, p: nat)
    requires p < |t|
  {
    || (t[p] == 'c' && t[p + 1] == 'v')
    || (t[p] == 'S' && t[p + 1] == 't' && t[p + 2] == 'c' && t[p + 3] == 'v')
  }

  lemma NoConversion(t: CString, c: Core)
    requires Good(t, c) && !IsConversion(t, c.pos)
    ensures !Is2(t, c, 'c', 'v') && (Is2(t, c, 'S', 't') ==> !Is2(t, c.Skip(2), 'c', 'v'))
  {
  }

  lemma NoUnqualifiedAtS(t: CString, c: Core)
    requires Good(t, c) && t[c.pos] == 'S'
    ensures Dud(UnqualifiedName(t, c), c)
  {
    hide UnqualifiedName;
    OperatorDud(t, c);
    CtorDtorDud(t, c);
    SourceDud(t, c);
    UnqualifiedDud(t, c);
  }

  lemma StdPrints(t: CString, c: Core, o: Out)
    requires Good(t, c) && t[c.pos] == 'S' && UnscopedName(t, c).ok && o.append && !IsConversion(t, c.pos)
    ensures SealsOrStays(o, Exec(UnscopedName(t, c).tr, o), true)
  {
    hide UnqualifiedName, Exec, Out.Print, Prints, IsConversion;
    NoConversion(t, c);
    NoUnqualifiedAtS(t, c);
    SilentRun(UnqualifiedName(t, c).tr, o);
    EmitRun("std::", o);
    PrintSeals(o, "std::");
    StdIsRemembered(o);
    var d := c.Skip(2);
    var b := Res(true, d, Emit("std::")).Then(UnqualifiedName(t, d));
    assert UnscopedName(t, c) == UnqualifiedName(t, c).Then(if b.ok then b else b.Undo(c));
    UnqualifiedPrints(t, d, o.Print("std::"));
  }

  lemma StdIsRemembered(o: Out)
    requires o.append
    ensures o.Print("std::").prev == "std::"
  {
    hide Tape.Print;
  }

  lemma UnscopedSeals(t: CString, c: Core, o: Out)
    requires Good(t, c) && UnscopedName(t, c).ok && !IsConversion(t, c.pos)
    requires o.append && (o.prev == "" ==> o.tape.len <= 0)
    ensures SealsOrStays(o, Exec(UnscopedName(t, c).tr, o), UnscopedPrints(t, c.pos, o.prev))
  {
    hide UnqualifiedName, Exec, Prints, SealsOrStays, IsConversion;
    NoConversion(t, c);
    if t[c.pos] == 'S' {
      StdPrints(t, c, o);
    } else {
      assert UnscopedName(t, c) == UnqualifiedName(t, c);
      UnqualifiedPrints(t, c, o);
    }
  }

  // ---------------------------------------------------------------- data names of one word

  /** "t" is "_Z" and an unscoped name that is no conversion, and nothing else. */
  predicate IsUnscopedData(t: CString) {
    && Is2(t, ENTRY, '_', 'Z') && t[2] != 'N' && t[2] != 'Z' && !IsConversion(t, 2)
    && var u := UnscopedName(t, LocalName(t, ENTRY.Skip(2)).c); u.ok && t[u.c.pos] == '\0'
  }

  lemma UnscopedIsData(t: CString, o: Out)
    requires IsUnscopedData(t)
    ensures var c := ENTRY.Skip(2);
            var n, u := Name(t, c), UnscopedName(t, LocalName(t, c).c);
            IsData(t) && Exec(n.tr, o) == Exec(u.tr, Exec(u.tr, o).Rollback(o))
  {
    hide LocalName, UnscopedName, Name, Exec, IsConversion, Out.Rollback;
    NameIsUnscoped(t, ENTRY.Skip(2), o);
  }

  /**
   * A data name of one word, scoped by "St" at most, is terminated if and only if its first characters say that it
   * prints; otherwise it is accepted without any text.
   */
  lemma UnscopedDataIsSealed(t: CString, bytes: string, behind: nat -> char)
    requires IsUnscopedData(t)
    ensures TopLevel(t).ok
    ensures var o := Exec(TopLevel(t).tr, Start(bytes, behind));
            if UnscopedPrints(t, 2, "") then o.sealed else !o.sealed && o.text == ""
  {
    hide LocalName, UnscopedName, Name, TopLevel, Exec, IsConversion, Out.Rollback, UnscopedPrints, Prints;
    var c, o := ENTRY.Skip(2), Start(bytes, behind);
    UnscopedIsData(t, o);
    TopLevelIsData(t, o);
    var n := Name(t, c);
    var again := Exec(n.tr, o).Rollback(o);
    BackAgain(Exec(n.tr, o), o);
    UnscopedIsData(t, again);
    LocalMisses(t, c);
    var d := LocalName(t, c).c;
    var u := UnscopedName(t, d);
    UnscopedSeals(t, d, again);
    var last := Exec(u.tr, again).Rollback(again);
    BackAgain(Exec(u.tr, again), again);
    UnscopedSeals(t, d, last);
  }

  // ---------------------------------------------------------------- data names that end in arguments

  lemma ArgsSeal(t: CString, c: Core, o: Out)
    requires Good(t, c) && TemplateArgs(t, c).ok && o.append
    ensures Exec(TemplateArgs(t, c).tr, o).append && Exec(TemplateArgs(t, c).tr, o).sealed
  {
    hide TemplateArgPlus, Tape.Print;
    var s := TemplateArgPlus(t, c.Skip(1));
    AppendKept(s.tr, o.(append := false));
  }

  /** "t" is "_Z", a template's name, and its arguments, and nothing else. */
  predicate IsTemplateData(t: CString) {
    && Is2(t, ENTRY, '_', 'Z') && t[2] != 'N' && t[2] != 'Z'
    && var u := UnscopedTemplateName(t, LocalName(t, ENTRY.Skip(2)).c);
       u.ok && TemplateArgs(t, u.c).ok && t[TemplateArgs(t, u.c).c.pos] == '\0'
  }

  lemma TemplateIsData(t: CString, o: Out)
    requires IsTemplateData(t)
    ensures var c := ENTRY.Skip(2);
            var u := UnscopedTemplateName(t, LocalName(t, c).c);
            IsData(t) && Exec(Name(t, c).tr, o) == Exec(TemplateArgs(t, u.c).tr, Exec(u.tr, o))
  {
    hide NestedName, LocalName, UnscopedTemplateName, TemplateArgs, Exec;
    var c := ENTRY.Skip(2);
    TemplateOrSubstitutionDud(t, c);
    LocalMisses(t, c);
    var a := NestedName(t, c).Then(LocalName(t, c));
    ThenSilent(NestedName(t, c), LocalName(t, c));
    SilentRun(a.tr, o);
    var u := UnscopedTemplateName(t, a.c);
    assert Name(t, c) == a.Then(u.Then(TemplateArgs(t, u.c)));
  }

  /** A data name that ends in template arguments is always terminated. */
  lemma TemplateDataIsSealed(t: CString, bytes: string, behind: nat -> char)
    requires IsTemplateData(t)
    ensures TopLevel(t).ok && Exec(TopLevel(t).tr, Start(bytes, behind)).sealed
  {
    hide NestedName, LocalName, UnscopedTemplateName, TemplateArgs, Name, TopLevel, Exec;
    var c, o := ENTRY.Skip(2), Start(bytes, behind);
    TemplateIsData(t, o);
    TopLevelIsData(t, o);
    var again := Exec(Name(t, c).tr, o).Rollback(o);
    BackAgain(Exec(Name(t, c).tr, o), o);
    TemplateIsData(t, again);
    var u := UnscopedTemplateName(t, LocalName(t, c).c);
    AppendKept(u.tr, again);
    ArgsSeal(t, u.c, Exec(u.tr, again));
  }

  // ---------------------------------------------------------------- a local name without any text

  /** "_ZZ0Es" is accepted without text; a buffer of three bytes or more holds the "::" of an abandoned attempt. */
  lemma LocalLeftover(t: CString, bytes: string, behind: nat -> char)
    requires t == "_ZZ0Es\0" && |bytes| >= 3
    ensures var o := Exec(TopLevel(t).tr, Start(bytes, behind));
            && TopLevel(t).ok && o.text == "" && !o.sealed && !o.tape.overflowed
            && |o.tape.bytes| == |bytes| && o.tape.bytes[..3] == "::\0"
  {
    hide NestedName, LocalName, Name, TopLevel, Exec, Out.Print, Out.Rollback;
    var c, o := ENTRY.Skip(2), Start(bytes, behind);
    TemplateOrSubstitutionDud(t, c);
    EmptyLocal(t, c, o);
    LocalIsName(t, c, o);
    TopLevelIsData(t, o);
    var again := o.Print("::").Rollback(o).Rollback(o);
    EmptyLocal(t, c, again);
    LocalIsName(t, c, again);
    SeparatorLeft(o, |bytes|);
    SeparatorLeft(again, |bytes|);
  }

  lemma LocalIsName(t: CString, c: Core, o: Out)
    requires Good(t, c) && t[c.pos] != 'N' && LocalName(t, c).ok
    ensures Name(t, c).ok && Name(t, c).c == LocalName(t, c).c && Exec(Name(t, c).tr, o) == Exec(LocalName(t, c).tr, o)
  {
    hide NestedName, LocalName, Exec;
    TemplateOrSubstitutionDud(t, c);
    SilentRun(NestedName(t, c).tr, o);
    assert Name(t, c) == NestedName(t, c).Then(LocalName(t, c));
  }

  /** What a separator that was taken back leaves at the beginning of a buffer. */
  lemma SeparatorLeft(o: Out, n: nat)
    requires Fresh(o, n) && n >= 3
    ensures Fresh(o.Print("::").Rollback(o).Rollback(o), n)
    ensures var r := o.Print("::").Rollback(o);
            && r.text == "" && !r.sealed && !r.tape.overflowed
            && |r.tape.bytes| == n && r.tape.bytes[..3] == "::\0"
  {
    hide Tape.Print;
    PrintGrows(o.tape, Bytes("::"), 2);
    PrintExact(o.tape, Bytes("::"), "::");
    var bytes := o.Print("::").tape.bytes;
    assert bytes[..2] == o.tape.bytes[..0] + "" + "::" == "::";
    assert bytes[..3] == bytes[..2] + [bytes[2]];
  }

  // ---------------------------------------------------------------- room for a separator

  /** A separator that is taken back must have fitted: two more characters than the text. */
  predicate HadRoom(o: Out) { !o.tape.overflowed ==> o.plain + 2 < |o.tape.bytes| }

  lemma RetractedNeedsRoom(b: Trace, o: Out)
    requires Frozen(b) && Clean(b) && Sound(o) && o.append
    ensures var r := Exec(Retracted(b), o);
            Sound(r) && r.append && r.nest == o.nest && (o.nest >= 1 ==> HadRoom(r))
  {
    hide Sound, Tape.Print, Out.Separate;
    RunSound(Retracted(b), o);
    SeparateSound(o);
    RunSound(b, o.Separate());
    SeparateNeeds(o);
    AppendKept(b, o.Separate());
    FrozenKeeps(b, o.Separate());
    if o.nest >= 1 { SeparatorFits(o); }
  }

  lemma SeparatorFits(o: Out)
    requires Sound(o) && o.nest >= 1 && o.append
    ensures var m := o.Separate();
            m.plain == o.plain + 2 && (!m.tape.overflowed ==> m.plain < |m.tape.bytes|)
  {
    SeparateSound(o);
    Separated(o);
  }

  /** Below the first component the loop of a prefix ends with such a separator. */
  lemma {:induction false} PrefixNeedsRoom(t: CString, c: Core, some: bool, o: Out)
    requires Good(t, c) && o.append && Sound(o)
    ensures var r := Exec(Prefix(t, c, some).tr, o); Sound(r) && (r.nest >= 1 ==> HadRoom(r))
    decreases |t| - c.pos
  {
    hide PrefixPart, TemplateArgs, Exec, Out.Separate, Out.Cancel, Out.Descend, Sound, HadRoom, Keeps;
    var a := PrefixPart(t, c);
    PrefixTurn(t, c, some, o);
    if a.ok {
      var b := Res(true, c, Separator).Then(a).Do(Deeper);
      RunSound(b.tr, o);
      AppendKept(b.tr, o);
      PrefixNeedsRoom(t, a.c, true, Exec(b.tr, o));
    } else {
      RetractedNeedsRoom(a.tr, o);
      var b := Exec(Retracted(a.tr), o);
      if some {
        var d := TemplateArgs(t, a.c);
        if d.ok {
          RunSound(d.tr, b);
          AppendKept(d.tr, b);
          PrefixNeedsRoom(t, d.c, false, Exec(d.tr, b));
        } else {
          FailedArgsWriteNothing(t, a.c, b);
        }
      }
    }
  }

  lemma NestedNeedsRoom(t: CString, c: Core, o: Out)
    requires Good(t, c) && NestedName(t, c).ok && HasComponent(t, c) && Sound(o) && o.append && |t| <= SHORT_MAX
    ensures HadRoom(Exec(NestedName(t, c).tr, o))
  {
    hide CVQualifiers, Prefix, HasComponent, Exec, Sound, Keeps;
    ComponentIsRead(t, c);
    var q := CVQualifiers(t, c.Skip(1));
    var inner := o.(nest := 0);
    SameSound(o, 0, o.append);
    PrefixSeals(t, q.c, false, inner);
    PrefixNeedsRoom(t, q.c, false, inner);
    assert NestedName(t, c) == Prefix(t, q.c, false).Nest().Eat(1);
  }

  /** So a nested data name is refused by every buffer that has no more than two characters beyond its text. */
  lemma NestedDataNeedsRoom(t: CString, bytes: string, behind: nat -> char)
    requires IsNestedData(t) && HasComponent(t, ENTRY.Skip(2)) && |t| <= SHORT_MAX
    ensures var o := Exec(TopLevel(t).tr, Start(bytes, behind));
            |bytes| <= o.plain + 2 ==> o.tape.overflowed
  {
    hide NestedName, HasComponent, TopLevel, Exec, Sound, Keeps;
    var c, o := ENTRY.Skip(2), Start(bytes, behind);
    assert Name(t, c) == NestedName(t, c);
    TopLevelIsData(t, o);
    StartSound(bytes, behind);
    var n := NestedName(t, c);
    RunSound(n.tr, o);
    RollbackSound(o, Exec(n.tr, o));
    var again := Exec(n.tr, o).Rollback(o);
    NestedNeedsRoom(t, c, again);
    RunSound(TopLevel(t).tr, o);
    SameLength(o, Exec(TopLevel(t).tr, o));
  }

  // ---------------------------------------------------------------- names made of words

  /** Source names one after another, up to an 'E'. */
  predicate IsPath(t: CString, p: nat)
    requires p < |t|
    decreases |t| - p
  {
    || t[p] == 'E'
    || (var s := SourceName(t, Core(p, 0, 0, 0)); s.ok && IsPath(t, s.c.pos))
  }

  /** Where the words end. */
  function PathEnd(t: CString, p: nat): (e: nat)
    requires p < |t| && IsPath(t, p)
    ensures p <= e < |t| && t[e] == 'E'
    decreases |t| - p
  {
    if t[p] == 'E' then p else PathEnd(t, SourceName(t, Core(p, 0, 0, 0)).c.pos)
  }

  lemma PathStarts(t: CString, c: Core)
    requires Good(t, c) && IsPath(t, c.pos)
    ensures t[c.pos] == 'E' || (SourceName(t, c).ok && IsPath(t, SourceName(t, c).c.pos) &&
                                PathEnd(t, c.pos) == PathEnd(t, SourceName(t, c).c.pos))
    ensures t[c.pos] == 'E' || IsDigit(t[c.pos]) || t[c.pos] == 'n'
  {
    hide SourceName;
    SourceAnywhere(t, c, Core(c.pos, 0, 0, 0));
    if SourceName(t, c).ok { SourceStarts(t, c); }
  }

  lemma WordIsPart(t: CString, c: Core, o: Out)
    requires Good(t, c) && IsPath(t, c.pos) && t[c.pos] != 'E'
    ensures var a, s := PrefixPart(t, c), SourceName(t, c);
            a.ok && s.ok && s.tr.Emit? && a.c == s.c && Exec(a.tr, o) == o.Print(s.tr.str)
  {
    hide TemplateParam, Substitution, UnscopedName, SourceName, Exec, Out.Print, IsPath;
    PathStarts(t, c);
    PathStarts(t, SourceName(t, c).c);
    SourcePrints(t, c);
    TemplateOrSubstitutionDud(t, c);
    UnscopedIsSource(t, c, o);
    var b := TemplateParam(t, c).Then(Substitution(t, c));
    ThenSilent(TemplateParam(t, c), Substitution(t, c));
    SilentRun(b.tr, o);
    EmitRun(SourceName(t, c).tr.str, o);
    assert PrefixPart(t, c) == b.Then(UnscopedName(t, c));
  }

  /** No blank parted two '<', and none will: behind a separator, or at the very beginning. */
  predicate Gapless(o: Out) { o.append && 0 <= o.nest && o.plain == |o.text| && (o.nest == 0 ==> o.text == "") }

  /** The text got longer, and never was longer than now, a separator aside. */
  predicate OneLonger(o: Out, r: Out) {
    Gapless(r) && |o.text| <= |r.text| && r.high <= (if o.high <= |r.text| + 2 then |r.text| + 2 else o.high)
  }

  lemma WordTurn(o: Out, str: string)
    requires Gapless(o) && o.nest < SHORT_MAX
    ensures var r := o.Separate().Print(str).Descend(); OneLonger(o, r) && r.nest == o.nest + 1
  {
    hide Tape.Print;
  }

  lemma LastTurn(o: Out)
    requires Gapless(o)
    ensures var r := o.Separate().Cancel(); OneLonger(o, r)
  {
    hide Tape.Print, Tape.Cancel;
  }

  /** What the loop of a prefix does to words. */
  lemma {:induction false} PathRuns(t: CString, c: Core, some: bool, o: Out)
    requires Good(t, c) && IsPath(t, c.pos) && Gapless(o) && o.nest + (|t| - c.pos) <= SHORT_MAX
    ensures Prefix(t, c, some).c.pos == PathEnd(t, c.pos) && OneLonger(o, Exec(Prefix(t, c, some).tr, o))
    decreases |t| - c.pos
  {
    hide PrefixPart, TemplateArgs, SourceName, Exec, Out.Print, Out.Separate, Out.Cancel, Out.Descend, Gapless;
    PrefixTurn(t, c, some, o);
    PathStarts(t, c);
    var a := PrefixPart(t, c);
    if t[c.pos] == 'E' {
      NothingStarts(t, c);
      SilentRun(a.tr, o.Separate());
      LastTurn(o);
      TemplateOrSubstitutionDud(t, a.c);
      SilentRun(TemplateArgs(t, a.c).tr, o.Separate().Cancel());
    } else {
      WordIsPart(t, c, o.Separate());
      var str := SourceName(t, c).tr.str;
      WordTurn(o, str);
      PathRuns(t, a.c, true, o.Separate().Print(str).Descend());
    }
  }

  /** "t" is "_ZN", one word or more, "E", and nothing else. */
  predicate IsPathName(t: CString) {
    && Is2(t, ENTRY, '_', 'Z') && t[2] == 'N' && t[3] != 'E' && IsPath(t, 3) && t[PathEnd(t, 3) + 1] == '\0'
  }

  lemma NestedIsPrefix(t: CString, c: Core)
    requires Good(t, c) && t[c.pos] == 'N' && t[c.pos + 1] != 'r' && t[c.pos + 1] != 'V' && t[c.pos + 1] != 'K'
    requires t[Prefix(t, c.Skip(1), false).c.pos] == 'E'
    ensures NestedName(t, c) == Prefix(t, c.Skip(1), false).Nest().Eat(1)
    ensures t[c.pos + 1] != 'E' ==> HasComponent(t, c)
  {
    hide Prefix, Exec, Clean, Flat, Frozen;
  }

  lemma PathIsNested(t: CString, o: Out)
    requires IsPathName(t) && o.append && o.text == "" && o.plain == 0 && |t| <= SHORT_MAX
    ensures IsNestedData(t) && HasComponent(t, ENTRY.Skip(2))
    ensures var r := Exec(NestedName(t, ENTRY.Skip(2)).tr, o);
            r.plain == |r.text| && r.high <= if o.high <= |r.text| + 2 then |r.text| + 2 else o.high
  {
    hide Prefix, NestedName, HasComponent, SourceName, PathEnd, IsPath, Exec, Clean, Flat, Frozen;
    var c := ENTRY.Skip(3);
    PathStarts(t, c);
    PathRuns(t, c, false, o.(nest := 0));
    NestedIsPrefix(t, ENTRY.Skip(2));
  }

  predicate SameWords(a: Out, b: Out) {
    a.text == b.text && a.prev == b.prev && a.nest == b.nest && a.append == b.append && a.plain == b.plain
  }

  lemma {:induction false} WordsStaySame(tr: Trace, a: Out, b: Out)
    requires SameWords(a, b)
    ensures SameWords(Exec(tr, a), Exec(tr, b))
  {
    hide Tape.Print, Tape.Cancel;
    match tr
    case Retracted(x) => WordsStaySame(x, a.Separate(), b.Separate());
    case Both(x, y) =>
      WordsStaySame(x, a, b);
      WordsStaySame(y, Exec(x, a), Exec(x, b));
    case Attempt(x) => WordsStaySame(x, a, b);
    case Muted(x) => WordsStaySame(x, a.(append := false), b.(append := false));
    case Nested(x) => WordsStaySame(x, a.(nest := 0), b.(nest := 0));
    case _ =>
  }

  /**
   * A nested name made of words is refused by exactly the buffers that have no more than two characters beyond its
   * text: those the text fits into as well, for want of room for a separator that would be taken back.
   */
  lemma PathNeedsTwoMore(t: CString, bytes: string, behind: nat -> char)
    requires IsPathName(t) && |t| <= SHORT_MAX
    ensures TopLevel(t).ok
    ensures var o := Exec(TopLevel(t).tr, Start(bytes, behind)); o.tape.overflowed <==> |bytes| <= |o.text| + 2
  {
    hide NestedName, HasComponent, TopLevel, Exec, IsPathName, Shows, Keeps, Sound, SameWords;
    var c, o := ENTRY.Skip(2), Start(bytes, behind);
    PathIsNested(t, o);
    assert Name(t, c) == NestedName(t, c);
    TopLevelIsData(t, o);
    var n := NestedName(t, c);
    var again := Exec(n.tr, o).Rollback(o);
    PathIsNested(t, again);
    BackIsSame(o, Exec(n.tr, o));
    WordsStaySame(n.tr, o, again);
    NestedDataNeedsRoom(t, bytes, behind);
    PathFits(t, bytes, behind, Exec(n.tr, o), Exec(n.tr, again));
  }

  lemma BackIsSame(o: Out, n: Out)
    ensures SameWords(o, n.Rollback(o))
  {
  }

  lemma PathFits(t: CString, bytes: string, behind: nat -> char, once: Out, r: Out)
    requires r == Exec(TopLevel(t).tr, Start(bytes, behind)) && SameWords(once, r)
    requires once.high <= |once.text| + 2 && r.high <= if once.high <= |r.text| + 2 then |r.text| + 2 else once.high
    ensures |bytes| > |r.text| + 2 ==> !r.tape.overflowed
  {
    hide TopLevel, Exec, Keeps, Sound;
    StartSound(bytes, behind);
    RunSound(TopLevel(t).tr, Start(bytes, behind));
    SameLength(Start(bytes, behind), r);
    if |bytes| > |r.text| + 2 { UnclippedShows(TopLevel(t).tr, bytes, behind); }
  }
}

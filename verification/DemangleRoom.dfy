/** How much room is enough: what a parse prints is bounded by what it reads. */
module DemangleRoom {
  import opened CText
  import opened Tape
  import opened Output
  import opened Recogniser
  import opened Faithful

  // ---------------------------------------------------------------- what a trace can print

  /** Characters that are left when it is done, each text with a blank before it, and how many remembered names. */
  function Chars(tr: Trace): nat {
    match tr
    case Emit(str) => |str| + 1
    case EmitPrev => 1
    case Separator => 2
    case Both(a, b) => Chars(a) + Chars(b)
    case Nested(b) => Chars(b)
    case _ => 0
  }

  function Repeats(tr: Trace): nat {
    match tr
    case EmitPrev => 1
    case Both(a, b) => Repeats(a) + Repeats(b)
    case Nested(b) => Repeats(b)
    case _ => 0
  }

  function Max(a: nat, b: nat): nat { if a < b then b else a }

  /** The most characters there are on the way, abandoned attempts included, and the most names. */
  function MostChars(tr: Trace): nat {
    match tr
    case Emit(str) => |str| + 1
    case EmitPrev => 1
    case Separator => 2
    case Retracted(b) => 2 + MostChars(b)
    case Both(a, b) => Max(MostChars(a), Chars(a) + MostChars(b))
    case Attempt(b) => MostChars(b)
    case Nested(b) => MostChars(b)
    case _ => 0
  }

  function MostRepeats(tr: Trace): nat {
    match tr
    case EmitPrev => 1
    case Retracted(b) => MostRepeats(b)
    case Both(a, b) => Max(MostRepeats(a), Repeats(a) + MostRepeats(b))
    case Attempt(b) => MostRepeats(b)
    case Nested(b) => MostRepeats(b)
    case _ => 0
  }

  /** No text that is remembered is longer than "n". */
  predicate Short(tr: Trace, n: nat) {
    match tr
    case Emit(str) => |str| <= n
    case Retracted(b) => Short(b, n)
    case Both(a, b) => Short(a, n) && Short(b, n)
    case Attempt(b) => Short(b, n)
    case Nested(b) => Short(b, n)
    case _ => true
  }

  // ---------------------------------------------------------------- what a nonterminal can print

  /** Twenty-one characters and one name for each character read from "p" on, less "slack" if it succeeds. */
  predicate Fits(t: CString, p: int, r: Res, slack: nat) {
    && Short(r.tr, |t| + 20)
    && Chars(r.tr) + (if r.ok then slack else 0) <= 21 * (r.c.pos - p) && Repeats(r.tr) <= r.c.pos - p
    && MostChars(r.tr) + slack <= 21 * (|t| - p) && MostRepeats(r.tr) <= |t| - p
  }

  lemma FailFits(t: CString, c: Core)
    requires Good(t, c)
    ensures Fits(t, c.pos, Fail(c), 2)
  {
  }

  lemma SmallActions(str: string)
    ensures Chars(Emit(str)) == MostChars(Emit(str)) == |str| + 1 && Repeats(Emit(str)) == MostRepeats(Emit(str)) == 0
    ensures Chars(Separator) == MostChars(Separator) == 2 && Repeats(Separator) == MostRepeats(Separator) == 0
    ensures Chars(Deeper) == MostChars(Deeper) == Repeats(Deeper) == MostRepeats(Deeper) == 0
  {
  }

  lemma ThenFits(t: CString, p: nat, a: Res, b: Res)
    requires Fits(t, p, a, 2) && Fits(t, a.c.pos, b, 2)
    ensures Fits(t, p, a.Then(b), 2)
  {
    hide Chars, Repeats, MostChars, MostRepeats;
    BothLeave(a.tr, b.tr);
    BothMost(a.tr, b.tr);
  }

  lemma UndoFits(t: CString, p: nat, a: Res, c: Core)
    requires Fits(t, p, a, 2) && c.pos == p
    ensures Fits(t, p, a.Undo(c), 2)
  {
  }

  lemma LaterFits(t: CString, p: nat, q: nat, r: Res)
    requires p <= q && Fits(t, q, r, 2)
    ensures Fits(t, p, r, 2)
  {
  }

  /** The same output, and perhaps more read. */
  lemma MoveFits(t: CString, p: nat, a: Res, r: Res)
    requires Fits(t, p, a, 2) && r.tr == a.tr && r.ok == a.ok && r.c.pos >= a.c.pos
    ensures Fits(t, p, r, 2)
  {
  }

  lemma EatFits(t: CString, p: nat, a: Res)
    requires Fits(t, p, a, 2)
    ensures Fits(t, p, a.Eat(1), 2)
  {
  }

  lemma NestFits(t: CString, p: nat, a: Res)
    requires Fits(t, p, a, 2)
    ensures Fits(t, p, a.Nest(), 2)
  {
  }

  /** An attempt further on, as it is and taken back. */
  lemma TryFits(t: CString, c: Core, q: nat, a: Res)
    requires c.pos <= q && Fits(t, q, a, 2)
    ensures Fits(t, c.pos, a, 2) && Fits(t, c.pos, a.Undo(c), 2)
  {
    hide Fits;
    LaterFits(t, c.pos, q, a);
    UndoFits(t, c.pos, a, c);
  }

  /** Alternatives and sequences of results that fit, fit from "p" on. */
  lemma Joins(t: CString, p: nat)
    ensures forall a: Res, b: Res {:trigger a.Then(b)} ::
              Fits(t, p, a, 2) && Fits(t, a.c.pos, b, 2) ==> Fits(t, p, a.Then(b), 2)
  {
    hide Fits;
    forall a: Res, b: Res | Fits(t, p, a, 2) && Fits(t, a.c.pos, b, 2) ensures Fits(t, p, a.Then(b), 2) {
      ThenFits(t, p, a, b);
    }
  }

  /** One text of up to twenty characters, for two characters read. */
  lemma EmitFits(t: CString, p: nat, c: Core, str: string)
    requires |str| <= 20 && p + 2 <= c.pos < |t|
    ensures Fits(t, p, Res(true, c, Emit(str)), 2)
  {
  }

  /** What is read with append off, and one short text for it. */
  lemma MuteFits(t: CString, p: nat, a: Res, str: string)
    requires p <= a.c.pos < |t| && (a.ok ==> p < a.c.pos) && |str| <= 16
    ensures Fits(t, p, a.Mute(), 2) && (a.ok ==> Fits(t, p, a.Mute().Do(Emit(str)), 2))
  {
  }

  // ---------------------------------------------------------------- leaves

  lemma SourceFits(t: CString, c: Core)
    requires Good(t, c)
    ensures Fits(t, c.pos, SourceName(t, c), 2)
  {
  }

  lemma LocalSourceFits(t: CString, c: Core)
    requires Good(t, c)
    ensures Fits(t, c.pos, LocalSourceName(t, c), 2)
  {
    hide SourceName, Fits;
    FailFits(t, c);
    if Is(t, c, 'L') {
      var s := SourceName(t, c.Skip(1));
      SourceFits(t, c.Skip(1));
      TryFits(t, c, c.pos + 1, s);
      if s.ok { MoveFits(t, c.pos, s, LocalSourceName(t, c)); }
    }
  }

  lemma TagsPrintNothing(t: CString, c: Core)
    requires Good(t, c)
    ensures var r := AbiTags(t, c).tr;
            Chars(r) == Repeats(r) == MostChars(r) == MostRepeats(r) == 0 && Short(r, |t| + 20)
  {
    hide AbiTagPlus;
  }

  lemma TaggedFits(t: CString, p: nat, a: Res)
    requires Good(t, a.c) && a.ok && Fits(t, p, a, 2)
    ensures Fits(t, p, Tagged(t, a), 2)
  {
    hide AbiTags;
    TagsPrintNothing(t, a.c);
  }

  lemma CtorDtorFits(t: CString, c: Core)
    requires Good(t, c)
    ensures Fits(t, c.pos, CtorDtorName(t, c), 2)
  {
  }

  lemma BuiltinFits(t: CString, c: Core)
    requires Good(t, c)
    ensures Fits(t, c.pos, BuiltinType(t, c), 2)
  {
    hide BUILTINS, SourceName;
    FailFits(t, c);
    if Is(t, c, 'u') {
      SourceFits(t, c.Skip(1));
      TryFits(t, c, c.pos + 1, SourceName(t, c.Skip(1)));
    }
  }

  lemma OperatorFits(t: CString, c: Core)
    requires Good(t, c) && HasChars(t, c.pos, 2)
    ensures Fits(t, c.pos, PlainOperator(t, c), 2)
  {
    hide OPERATORS, Fits, Lookup, OperatorTrace;
    FailFits(t, c);
    var k := Lookup(OPERATORS, Pair(t[c.pos], t[c.pos + 1]), 0);
    if PlainOperator(t, c).ok { OperatorTraceFits(t, c.pos, c.Skip(2), OPERATORS[k].name); }
  }

  lemma OperatorTraceFits(t: CString, p: nat, c: Core, name: Label)
    requires p + 2 <= c.pos < |t|
    ensures Fits(t, p, Res(true, c, OperatorTrace(name)), 2)
  {
    var gap := if IsLower(FirstChar(name)) then Emit(" ") else Nothing;
    assert Chars(Both(Emit("operator"), gap)) <= 11 && MostChars(Both(Emit("operator"), gap)) <= 11;
  }

  lemma StdTraceFits(t: CString, p: nat, c: Core, name: Label)
    requires p + 2 <= c.pos < |t|
    ensures Fits(t, p, Res(true, c, StdTrace(name)), 2)
  {
    var rest := Both(Emit("::"), Emit(name));
    assert Chars(rest) <= 22 && MostChars(rest) <= 22 && Repeats(rest) == MostRepeats(rest) == 0;
    assert Short(Emit("::"), |t| + 20) && Short(Emit(name), |t| + 20) && Short(Emit("std"), |t| + 20);
  }

  lemma VendorOperatorFits(t: CString, c: Core)
    requires Good(t, c)
    ensures Fits(t, c.pos, VendorOperator(t, c), 2)
  {
    hide SourceName, Fits;
    FailFits(t, c);
    if Is(t, c, 'v') && IsDigit(t[c.pos + 1]) {
      SourceFits(t, c.Skip(2));
      TryFits(t, c, c.pos + 2, SourceName(t, c.Skip(2)));
    }
  }

  lemma ParamFits(t: CString, c: Core)
    requires Good(t, c)
    ensures Fits(t, c.pos, TemplateParam(t, c), 2)
  {
    hide Number;
  }

  lemma StdFits(t: CString, c: Core)
    requires Good(t, c)
    ensures Fits(t, c.pos, StdSubstitution(t, c), 2)
  {
    hide SUBSTITUTIONS, Fits, Lookup, StdTrace;
    FailFits(t, c);
    if StdSubstitution(t, c).ok {
      var k := Lookup(SUBSTITUTIONS, Second(t[c.pos + 1]), 0);
      StdTraceFits(t, c.pos, c.Skip(2), SUBSTITUTIONS[k].name);
    }
  }

  lemma NumberedFits(t: CString, c: Core)
    requires Good(t, c)
    ensures Fits(t, c.pos, NumberedSubstitution(t, c), 2)
  {
    hide RunEnd;
  }

  lemma SubstitutionFits(t: CString, c: Core)
    requires Good(t, c)
    ensures Fits(t, c.pos, Substitution(t, c), 2)
  {
    hide StdSubstitution, NumberedSubstitution, Fits;
    StdFits(t, c);
    NumberedFits(t, c);
    if Is2(t, c, 'S', '_') { EmitFits(t, c.pos, c.Skip(2), "?"); }
  }

  lemma TemplateTemplateFits(t: CString, c: Core)
    requires Good(t, c)
    ensures Fits(t, c.pos, TemplateTemplateParam(t, c), 2)
  {
    hide TemplateParam, Substitution, Fits;
    Joins(t, c.pos);
    ParamFits(t, c);
    SubstitutionFits(t, TemplateParam(t, c).c);
  }

  // ---------------------------------------------------------------- names

  lemma {:induction false} MangledFits(t: CString, c: Core)
    requires Good(t, c)
    ensures Fits(t, c.pos, MangledName(t, c), 2)
    decreases |t| - c.pos, 0
  {
    hide Encoding, Fits, Exec, Clean, Flat, Frozen;
    FailFits(t, c);
    if Is2(t, c, '_', 'Z') {
      EncodingFits(t, c.Skip(2));
      TryFits(t, c, c.pos + 2, Encoding(t, c.Skip(2)));
    }
  }

  lemma {:induction false} EncodingFits(t: CString, c: Core)
    requires Good(t, c)
    ensures Fits(t, c.pos, Encoding(t, c), 2)
    decreases |t| - c.pos, 6
  {
    hide Name, BareFunctionType, SpecialName, Fits, Exec, Clean, Flat, Frozen;
    Joins(t, c.pos);
    var n := Name(t, c);
    NameFits(t, c);
    BareFits(t, n.c);
    var f := if n.ok then n.Then(BareFunctionType(t, n.c)) else n;
    UndoFits(t, c.pos, f, c);
    SpecialFits(t, f.Undo(c).Then(n).c);
  }

  lemma {:induction false} NameFits(t: CString, c: Core)
    requires Good(t, c)
    ensures Fits(t, c.pos, Name(t, c), 2)
    decreases |t| - c.pos, 5
  {
    hide NestedName, LocalName, UnscopedTemplateName, TemplateArgs, UnscopedName, Fits, Exec, Clean, Flat;
    hide Frozen;
    Joins(t, c.pos);
    NestedNameFits(t, c);
    LocalNameFits(t, c);
    var d := LocalName(t, c).c;
    Joins(t, d.pos);
    var u := UnscopedTemplateName(t, d);
    TemplateNameFits(t, d);
    ArgsFit(t, u.c);
    UndoFits(t, d.pos, if u.ok then u.Then(TemplateArgs(t, u.c)) else u, d);
    UnscopedFits(t, d);
  }

  lemma {:induction false} UnscopedFits(t: CString, c: Core)
    requires Good(t, c)
    ensures Fits(t, c.pos, UnscopedName(t, c), 2)
    decreases |t| - c.pos, 3
  {
    hide UnqualifiedName, Fits, Exec, Clean, Flat, Frozen;
    Joins(t, c.pos);
    UnqualifiedFits(t, c);
    var d := UnqualifiedName(t, c).c;
    if Is2(t, d, 'S', 't') {
      Joins(t, d.pos);
      EmitFits(t, d.pos, d.Skip(2), "std::");
      UnqualifiedFits(t, d.Skip(2));
      UndoFits(t, d.pos, Res(true, d.Skip(2), Emit("std::")).Then(UnqualifiedName(t, d.Skip(2))), d);
    }
  }

  lemma {:induction false} TemplateNameFits(t: CString, c: Core)
    requires Good(t, c)
    ensures Fits(t, c.pos, UnscopedTemplateName(t, c), 2)
    decreases |t| - c.pos, 4
  {
    hide UnscopedName, Substitution, Fits, Exec, Clean, Flat, Frozen;
    Joins(t, c.pos);
    UnscopedFits(t, c);
    SubstitutionFits(t, UnscopedName(t, c).c);
  }

  lemma {:induction false} NestedNameFits(t: CString, c: Core)
    requires Good(t, c)
    ensures Fits(t, c.pos, NestedName(t, c), 2)
    decreases |t| - c.pos, 0
  {
    hide CVQualifiers, Prefix, Fits, Exec, Clean, Flat, Frozen;
    FailFits(t, c);
    if Is(t, c, 'N') {
      var q := CVQualifiers(t, c.Skip(1));
      PrefixFits(t, q.c, false);
      GroupFits(t, c, q.c.pos, Prefix(t, q.c, false));
    }
  }

  /** A prefix between 'N' and 'E'. */
  lemma GroupFits(t: CString, c: Core, q: nat, a: Res)
    requires c.pos < q && a.ok && q <= a.c.pos && Fits(t, q, a, 0)
    ensures Fits(t, c.pos, a.Nest().Eat(1), 2) && Fits(t, c.pos, a.Nest().Undo(c), 2)
  {
  }

  lemma {:induction false} PartFits(t: CString, c: Core)
    requires Good(t, c)
    ensures Fits(t, c.pos, PrefixPart(t, c), 2)
    decreases |t| - c.pos, 4
  {
    hide TemplateParam, Substitution, UnscopedName, Fits, Exec, Clean, Flat, Frozen;
    Joins(t, c.pos);
    ParamFits(t, c);
    SubstitutionFits(t, c);
    UnscopedFits(t, c);
  }

  /** A separator and a component, paid for by the component. */
  lemma TurnFits(t: CString, p: nat, a: Res, c: Core, rest: Res)
    requires a.ok && a.c.pos < |t| && Fits(t, p, a, 2) && Fits(t, a.c.pos, rest, 0)
    ensures Fits(t, p, Res(true, c, Separator).Then(a).Do(Deeper).Then(rest), 0)
  {
    hide Fits;
    var d := Res(true, c, Separator).Then(a).Do(Deeper);
    ComponentFits(t, p, a, c);
    LooselyThen(t, p, d, rest);
  }

  lemma ComponentFits(t: CString, p: nat, a: Res, c: Core)
    requires a.ok && a.c.pos < |t| && Fits(t, p, a, 2)
    ensures Fits(t, p, Res(true, c, Separator).Then(a).Do(Deeper), 0)
  {
    hide Chars, Repeats, MostChars, MostRepeats;
    var b := Both(Separator, a.tr);
    SmallActions("");
    BothLeave(Separator, a.tr);
    BothMost(Separator, a.tr);
    BothLeave(b, Deeper);
    BothMost(b, Deeper);
    assert Short(Separator, |t| + 20) && Short(Deeper, |t| + 20) && Short(b, |t| + 20);
  }

  /** A separator that is taken back, and arguments behind it. */
  lemma LastFits(t: CString, p: nat, a: Res)
    requires !a.ok && Fits(t, p, a, 2) && a.c.pos >= p
    ensures Fits(t, p, Res(true, a.c, Retracted(a.tr)), 0)
  {
  }

  lemma LooselyThen(t: CString, p: nat, a: Res, b: Res)
    requires Fits(t, p, a, 0) && Fits(t, a.c.pos, b, 0)
    ensures Fits(t, p, a.Then(b), 0) && Fits(t, p, Res(true, b.c, Both(a.tr, b.tr)), 0)
  {
    hide Chars, Repeats, MostChars, MostRepeats;
    BothLeave(a.tr, b.tr);
    BothMost(a.tr, b.tr);
  }

  lemma Loosely(t: CString, p: nat, a: Res)
    requires Fits(t, p, a, 2)
    ensures Fits(t, p, a, 0)
  {
  }

  lemma {:induction false} PrefixFits(t: CString, c: Core, some: bool)
    requires Good(t, c)
    ensures Fits(t, c.pos, Prefix(t, c, some), 0)
    decreases |t| - c.pos, 5
  {
    hide PrefixPart, TemplateArgs, Fits, Exec, Clean, Flat, Frozen;
    var a := PrefixPart(t, c);
    PartFits(t, c);
    if a.ok {
      PrefixFits(t, a.c, true);
      TurnFits(t, c.pos, a, c, Prefix(t, a.c, true));
    } else {
      LastFits(t, c.pos, a);
      if some {
        var b := Res(true, a.c, Retracted(a.tr));
        var d := TemplateArgs(t, a.c);
        ArgsFit(t, a.c);
        Loosely(t, a.c.pos, d);
        LooselyThen(t, c.pos, b, d);
        if d.ok {
          PrefixFits(t, d.c, false);
          LooselyThen(t, c.pos, b.Then(d), Prefix(t, d.c, false));
        }
      }
    }
  }

  lemma {:induction false} UnqualifiedFits(t: CString, c: Core)
    requires Good(t, c)
    ensures Fits(t, c.pos, UnqualifiedName(t, c), 2)
    decreases |t| - c.pos, 2
  {
    hide OperatorName, CtorDtorName, SourceName, LocalSourceName, Tagged, Fits, Exec, Clean, Flat, Frozen;
    Joins(t, c.pos);
    OperatorNameFits(t, c);
    var a := OperatorName(t, c);
    CtorDtorFits(t, c);
    var b := a.Then(CtorDtorName(t, c));
    SourceFits(t, c);
    var d := b.Then(SourceName(t, c));
    LocalSourceFits(t, c);
    var e := d.Then(LocalSourceName(t, c));
    if !a.ok && !b.ok {
      if d.ok { TaggedFits(t, c.pos, d); } else if e.ok { TaggedFits(t, c.pos, e); }
    }
  }

  lemma {:induction false} OperatorNameFits(t: CString, c: Core)
    requires Good(t, c)
    ensures Fits(t, c.pos, OperatorName(t, c), 2)
    decreases |t| - c.pos, 1
  {
    hide Conversion, VendorOperator, PlainOperator, Fits, Exec, Clean, Flat, Frozen;
    FailFits(t, c);
    Joins(t, c.pos);
    if HasChars(t, c.pos, 2) {
      ConversionFits(t, c);
      VendorOperatorFits(t, c);
      OperatorFits(t, c);
    }
  }

  lemma {:induction false} ConversionFits(t: CString, c: Core)
    requires Good(t, c)
    ensures Fits(t, c.pos, Conversion(t, c), 2)
    decreases |t| - c.pos, 0
  {
    hide Type, Fits, Exec, Clean, Flat, Frozen;
    FailFits(t, c);
    Joins(t, c.pos);
    if Is2(t, c, 'c', 'v') {
      var y := Type(t, c.Skip(2));
      EmitFits(t, c.pos, c.Skip(2), "operator ");
      TypeFits(t, c.Skip(2));
      NestFits(t, c.pos + 2, y);
      UndoFits(t, c.pos, Res(true, c.Skip(2), Emit("operator ")).Then(y.Nest()), c);
    }
  }

  lemma {:induction false} LocalNameFits(t: CString, c: Core)
    requires Good(t, c)
    ensures Fits(t, c.pos, LocalName(t, c), 2)
    decreases |t| - c.pos, 1
  {
    hide LocalEntity, LocalString, Fits, Exec, Clean, Flat, Frozen;
    FailFits(t, c);
    Joins(t, c.pos);
    if c.local <= MAX_LEVELS {
      var c1 := c.(local := c.local + 1);
      var a := LocalEntity(t, c1);
      EntityFits(t, c1);
      StringFits(t, c1);
      var b := a.Then(LocalString(t, c1));
      if a.ok { MoveFits(t, c.pos, a, LeaveLocal(a)); } else if b.ok { MoveFits(t, c.pos, b, LeaveLocal(b)); }
    }
  }

  /** An encoding, "::" for the 'E' behind it, and a name. */
  lemma ScopedFits(t: CString, p: nat, e: Res, n: Res)
    requires e.ok && Fits(t, p, e, 2) && Fits(t, e.c.pos + 1, n, 2) && e.c.pos + 1 < |t|
    ensures Fits(t, p, e.Do(Emit("::")).Then(n), 2)
  {
    hide Chars, Repeats, MostChars, MostRepeats;
    var d := Both(e.tr, Emit("::"));
    SmallActions("::");
    BothLeave(e.tr, Emit("::"));
    BothMost(e.tr, Emit("::"));
    BothLeave(d, n.tr);
    BothMost(d, n.tr);
    assert Short(Emit("::"), |t| + 20) && Short(d, |t| + 20);
  }

  lemma {:induction false} EntityFits(t: CString, c: Core)
    requires Good(t, c)
    ensures Fits(t, c.pos, LocalEntity(t, c), 2)
    decreases |t| - c.pos, 0
  {
    hide Encoding, Name, Fits, Exec, Clean, Flat, Frozen;
    var r := LocalEntity(t, c);
    FailFits(t, c);
    if Is(t, c, 'Z') {
      var e := Encoding(t, c.Skip(1));
      EncodingFits(t, c.Skip(1));
      LaterFits(t, c.pos, c.pos + 1, e);
      if e.ok && Is(t, e.c, 'E') {
        var n := Name(t, e.c.Skip(1));
        NameFits(t, e.c.Skip(1));
        ScopedFits(t, c.pos, e, n);
        var b := e.Do(Emit("::")).Then(n);
        if n.ok {
          assert LocalEntity(t, c) == Res(true, Discriminator(t, n.c).c, b.tr);
          MoveFits(t, c.pos, b, LocalEntity(t, c));
        } else {
          assert LocalEntity(t, c) == b.Undo(c);
          UndoFits(t, c.pos, b, c);
        }
      } else {
        UndoFits(t, c.pos, e, c);
      }
    }
  }

  lemma {:induction false} StringFits(t: CString, c: Core)
    requires Good(t, c)
    ensures Fits(t, c.pos, LocalString(t, c), 2)
    decreases |t| - c.pos, 0
  {
    hide Encoding, Discriminator, Fits, Exec, Clean, Flat, Frozen;
    FailFits(t, c);
    if Is(t, c, 'Z') {
      var e := Encoding(t, c.Skip(1));
      EncodingFits(t, c.Skip(1));
      TryFits(t, c, c.pos + 1, e);
      if e.ok && Is2(t, e.c, 'E', 's') { MoveFits(t, c.pos, e, LocalString(t, c)); }
    }
  }

  // ---------------------------------------------------------------- special names

  lemma {:induction false} SpecialTypeFits(t: CString, c: Core, cls: string)
    requires Good(t, c)
    ensures Fits(t, c.pos, SpecialType(t, c, cls), 2)
    decreases |t| - c.pos, 0
  {
    hide Type, Fits, Exec, Clean, Flat, Frozen;
    FailFits(t, c);
    if Is(t, c, 'T') && IsAny(t, c.Skip(1), cls) {
      TypeFits(t, c.Skip(2));
      TryFits(t, c, c.pos + 2, Type(t, c.Skip(2)));
    }
  }

  lemma {:induction false} CovariantFits(t: CString, c: Core)
    requires Good(t, c)
    ensures Fits(t, c.pos, CovariantThunk(t, c), 2)
    decreases |t| - c.pos, 0
  {
    hide CallOffset, Encoding, Fits, Exec, Clean, Flat, Frozen;
    FailFits(t, c);
    if Is2(t, c, 'T', 'c') {
      var x := CallOffset(t, c.Skip(2));
      if x.ok && CallOffset(t, x.c).ok {
        var d := CallOffset(t, x.c).c;
        EncodingFits(t, d);
        TryFits(t, c, d.pos, Encoding(t, d));
      }
    }
  }

  lemma {:induction false} GuardNameFits(t: CString, c: Core, b: char)
    requires Good(t, c) && b != '\0'
    ensures Fits(t, c.pos, GuardName(t, c, b), 2)
    decreases |t| - c.pos, 0
  {
    hide Name, Fits, Exec, Clean, Flat, Frozen;
    FailFits(t, c);
    if Is2(t, c, 'G', b) {
      NameFits(t, c.Skip(2));
      TryFits(t, c, c.pos + 2, Name(t, c.Skip(2)));
    }
  }

  lemma {:induction false} ThunkFits(t: CString, c: Core, cls: string)
    requires Good(t, c)
    ensures Fits(t, c.pos, Thunk(t, c, cls), 2)
    decreases |t| - c.pos, 0
  {
    hide CallOffset, Encoding, Fits, Exec, Clean, Flat, Frozen;
    FailFits(t, c);
    if Is(t, c, 'T') && (cls == "" || IsAny(t, c.Skip(1), cls)) {
      var x := CallOffset(t, c.Skip(if cls == "" then 1 else 2));
      if x.ok {
        EncodingFits(t, x.c);
        TryFits(t, c, x.c.pos, Encoding(t, x.c));
      }
    }
  }

  lemma {:induction false} ConstructionFits(t: CString, c: Core)
    requires Good(t, c)
    ensures Fits(t, c.pos, ConstructionVtable(t, c), 2)
    decreases |t| - c.pos, 0
  {
    hide Type, VtableOffset, Fits, Exec, Clean, Flat, Frozen;
    FailFits(t, c);
    Joins(t, c.pos);
    if Is2(t, c, 'T', 'C') {
      var y := Type(t, c.Skip(2));
      TypeFits(t, c.Skip(2));
      TryFits(t, c, c.pos + 2, y);
      var n := VtableOffset(t, y.c);
      if n.ok {
        var w := Type(t, n.c).Mute();
        MuteFits(t, n.c.pos, Type(t, n.c), "");
        LaterFits(t, y.c.pos, n.c.pos, w);
        UndoFits(t, c.pos, y.Then(w), c);
      }
    }
  }

  lemma {:induction false} GuardEncodingFits(t: CString, c: Core)
    requires Good(t, c)
    ensures Fits(t, c.pos, GuardEncoding(t, c), 2)
    decreases |t| - c.pos, 0
  {
    hide Encoding, Fits, Exec, Clean, Flat, Frozen;
    FailFits(t, c);
    if Is2(t, c, 'G', 'A') {
      EncodingFits(t, c.Skip(2));
      TryFits(t, c, c.pos + 2, Encoding(t, c.Skip(2)));
    }
  }

  lemma {:induction false} SpecialFits(t: CString, c: Core)
    requires Good(t, c)
    ensures Fits(t, c.pos, SpecialName(t, c), 2)
    decreases |t| - c.pos, 1
  {
    hide SpecialType, CovariantThunk, GuardName, Thunk, ConstructionVtable, GuardEncoding, Fits, Exec, Clean;
    hide Flat, Frozen;
    Joins(t, c.pos);
    SpecialTypeFits(t, c, "VTIS");
    CovariantFits(t, c);
    GuardNameFits(t, c, 'V');
    ThunkFits(t, c, "");
    ConstructionFits(t, c);
    SpecialTypeFits(t, c, "FJ");
    GuardNameFits(t, c, 'R');
    GuardEncodingFits(t, c);
    ThunkFits(t, c, "hv");
  }

  // ---------------------------------------------------------------- types

  lemma {:induction false} QualifiedFits(t: CString, c: Core)
    requires Good(t, c)
    ensures Fits(t, c.pos, QualifiedType(t, c), 2)
    decreases |t| - c.pos, 0
  {
    hide CVQualifiers, Type, Fits, Exec, Clean, Flat, Frozen;
    FailFits(t, c);
    var q := CVQualifiers(t, c);
    if q.ok {
      TypeFits(t, q.c);
      TryFits(t, c, q.c.pos, Type(t, q.c));
    }
  }

  lemma {:induction false} PointerFits(t: CString, c: Core)
    requires Good(t, c)
    ensures Fits(t, c.pos, PointerType(t, c), 2)
    decreases |t| - c.pos, 0
  {
    hide Type, Fits, Exec, Clean, Flat, Frozen;
    FailFits(t, c);
    if IsAny(t, c, "OPRCG") {
      TypeFits(t, c.Skip(1));
      TryFits(t, c, c.pos + 1, Type(t, c.Skip(1)));
    }
  }

  lemma {:induction false} PackFits(t: CString, c: Core)
    requires Good(t, c)
    ensures Fits(t, c.pos, PackExpansion(t, c), 2)
    decreases |t| - c.pos, 0
  {
    hide Type, Fits, Exec, Clean, Flat, Frozen;
    FailFits(t, c);
    if Is2(t, c, 'D', 'p') {
      TypeFits(t, c.Skip(2));
      TryFits(t, c, c.pos + 2, Type(t, c.Skip(2)));
    }
  }

  lemma {:induction false} DeclFits(t: CString, c: Core)
    requires Good(t, c)
    ensures Fits(t, c.pos, DeclType(t, c), 2)
    decreases |t| - c.pos, 0
  {
    hide Expression, Fits, Exec, Clean, Flat, Frozen;
    FailFits(t, c);
    if Is(t, c, 'D') && IsAny(t, c.Skip(1), "tT") {
      ExpressionFits(t, c.Skip(2));
      TryFits(t, c, c.pos + 2, Expression(t, c.Skip(2)));
      EatFits(t, c.pos, Expression(t, c.Skip(2)));
    }
  }

  lemma {:induction false} VendorFits(t: CString, c: Core)
    requires Good(t, c)
    ensures Fits(t, c.pos, VendorType(t, c), 2)
    decreases |t| - c.pos, 0
  {
    hide SourceName, Type, Fits, Exec, Clean, Flat, Frozen;
    FailFits(t, c);
    if Is(t, c, 'U') {
      var s := SourceName(t, c.Skip(1));
      SourceFits(t, c.Skip(1));
      TryFits(t, c, c.pos + 1, s);
      if s.ok {
        TypeFits(t, s.c);
        ThenFits(t, c.pos, s, Type(t, s.c));
        UndoFits(t, c.pos, s.Then(Type(t, s.c)), c);
      }
    }
  }

  lemma {:induction false} PlainFits(t: CString, c: Core)
    requires Good(t, c)
    ensures Fits(t, c.pos, PlainType(t, c), 2)
    decreases |t| - c.pos, 6
  {
    hide BuiltinType, FunctionType, Name, ArrayType, PointerToMemberType, Substitution, Fits, Exec, Clean;
    hide Flat, Frozen;
    Joins(t, c.pos);
    BuiltinFits(t, c);
    FunctionFits(t, c);
    NameFits(t, c);
    var d := Name(t, c).c;
    ArrayFits(t, d);
    MemberFits(t, d);
    SubstitutionFits(t, d);
  }

  lemma {:induction false} TypeFits(t: CString, c: Core)
    requires Good(t, c)
    ensures Fits(t, c.pos, Type(t, c), 2)
    decreases |t| - c.pos, 7
  {
    hide QualifiedType, PointerType, PackExpansion, DeclType, VendorType, PlainType, TemplateTemplateParam;
    hide TemplateParam, TemplateArgs, Fits, Exec, Clean, Flat, Frozen;
    Joins(t, c.pos);
    QualifiedFits(t, c);
    PointerFits(t, c);
    PackFits(t, c);
    DeclFits(t, c);
    VendorFits(t, c);
    PlainFits(t, c);
    ParamFits(t, c);
    var p := PlainType(t, c);
    var u := p.Then(TemplateTemplateParam(t, p.c));
    TemplateTemplateFits(t, p.c);
    ArgsFit(t, u.c);
    if !p.ok { UndoFits(t, c.pos, if u.ok then u.Then(TemplateArgs(t, u.c)) else u, c); }
  }

  lemma {:induction false} FunctionFits(t: CString, c: Core)
    requires Good(t, c)
    ensures Fits(t, c.pos, FunctionType(t, c), 2)
    decreases |t| - c.pos, 0
  {
    hide BareFunctionType, Fits, Exec, Clean, Flat, Frozen;
    FailFits(t, c);
    if Is(t, c, 'F') {
      var y := if Is(t, c.Skip(1), 'Y') then c.Skip(2) else c.Skip(1);
      BareFits(t, y);
      TryFits(t, c, y.pos, BareFunctionType(t, y));
      EatFits(t, c.pos, BareFunctionType(t, y));
    }
  }

  lemma {:induction false} BareFits(t: CString, c: Core)
    requires Good(t, c)
    ensures Fits(t, c.pos, BareFunctionType(t, c), 2)
    decreases |t| - c.pos, 9
  {
    hide TypePlus, Fits, Exec, Clean, Flat, Frozen;
    var s := TypePlus(t, c);
    MuteFits(t, c.pos, s, "()");
    UndoFits(t, c.pos, s.Mute(), c);
  }

  lemma {:induction false} BoundedFits(t: CString, c: Core)
    requires Good(t, c)
    ensures Fits(t, c.pos, BoundedArray(t, c), 2)
    decreases |t| - c.pos, 0
  {
    hide Number, Type, Fits, Exec, Clean, Flat, Frozen;
    FailFits(t, c);
    if Is(t, c, 'A') {
      var n := Number(t, c.Skip(1));
      if n.ok && Is(t, n.c, '_') {
        TypeFits(t, n.c.Skip(1));
        TryFits(t, c, n.c.pos + 1, Type(t, n.c.Skip(1)));
      }
    }
  }

  lemma {:induction false} ArrayFits(t: CString, c: Core)
    requires Good(t, c)
    ensures Fits(t, c.pos, ArrayType(t, c), 2)
    decreases |t| - c.pos, 1
  {
    hide BoundedArray, Expression, Type, Fits, Exec, Clean, Flat, Frozen;
    Joins(t, c.pos);
    BoundedFits(t, c);
    if Is(t, c, 'A') {
      var e := Expression(t, c.Skip(1));
      ExpressionFits(t, c.Skip(1));
      TryFits(t, c, c.pos + 1, e);
      if Is(t, e.c, '_') {
        var y := Type(t, e.c.Skip(1));
        TypeFits(t, e.c.Skip(1));
        LaterFits(t, e.c.pos, e.c.pos + 1, y);
        UndoFits(t, c.pos, e.Then(y), c);
      }
    }
  }

  lemma {:induction false} MemberFits(t: CString, c: Core)
    requires Good(t, c)
    ensures Fits(t, c.pos, PointerToMemberType(t, c), 2)
    decreases |t| - c.pos, 0
  {
    hide Type, Fits, Exec, Clean, Flat, Frozen;
    FailFits(t, c);
    if Is(t, c, 'M') {
      var a := Type(t, c.Skip(1));
      TypeFits(t, c.Skip(1));
      TryFits(t, c, c.pos + 1, a);
      if a.ok {
        TypeFits(t, a.c);
        ThenFits(t, c.pos, a, Type(t, a.c));
        UndoFits(t, c.pos, a.Then(Type(t, a.c)), c);
      }
    }
  }

  lemma {:induction false} ArgsFit(t: CString, c: Core)
    requires Good(t, c)
    ensures Fits(t, c.pos, TemplateArgs(t, c), 2)
    decreases |t| - c.pos, 0
  {
    hide TemplateArgPlus, Fits, Exec, Clean, Flat, Frozen;
    FailFits(t, c);
    if Is(t, c, 'I') {
      var s := TemplateArgPlus(t, c.Skip(1));
      MuteFits(t, c.pos + 1, s, "<>");
      TryFits(t, c, c.pos + 1, s.Mute());
      if s.ok {
        TryFits(t, c, c.pos + 1, s.Mute().Do(Emit("<>")));
        EatFits(t, c.pos, s.Mute().Do(Emit("<>")));
      }
    }
  }

  // ---------------------------------------------------------------- expressions

  lemma {:induction false} OperandsFit(t: CString, c: Core, n: nat)
    requires Good(t, c)
    ensures Fits(t, c.pos, Operands(t, c, n), 0)
    decreases |t| - c.pos, 5 + n
  {
    hide Expression, Exec, Clean, Flat, Frozen, Fits;
    if n == 0 {
      PassFits(t, c);
    } else {
      OperandsFit(t, c, n - 1);
      var a := Operands(t, c, n - 1);
      if a.ok {
        ExpressionFits(t, a.c);
        Loosely(t, a.c.pos, Expression(t, a.c));
        LooselyThen(t, c.pos, a, Expression(t, a.c));
      }
    }
  }

  lemma PassFits(t: CString, c: Core)
    requires Good(t, c)
    ensures Fits(t, c.pos, Pass(c), 0)
  {
  }

  lemma ThenOperands(t: CString, p: nat, a: Res, b: Res)
    requires a.ok && Fits(t, p, a, 2) && Fits(t, a.c.pos, b, 0)
    ensures Fits(t, p, a.Then(b), 2)
  {
    hide Chars, Repeats, MostChars, MostRepeats;
    BothLeave(a.tr, b.tr);
    BothMost(a.tr, b.tr);
  }

  lemma {:induction false} OperationFits(t: CString, c: Core, n: nat)
    requires Good(t, c)
    ensures Fits(t, c.pos, Operation(t, c, n), 2)
    decreases |t| - c.pos, 2
  {
    hide OperatorName, Operands, Fits, Exec, Clean, Flat, Frozen;
    var o := OperatorName(t, c);
    OperatorNameFits(t, c);
    UndoFits(t, c.pos, o, c);
    if o.ok {
      OperandsFit(t, o.c, n);
      ThenOperands(t, c.pos, o, Operands(t, o.c, n));
      UndoFits(t, c.pos, o.Then(Operands(t, o.c, n)), c);
    }
  }

  lemma {:induction false} SizeofFits(t: CString, c: Core)
    requires Good(t, c)
    ensures Fits(t, c.pos, SizeofType(t, c), 2)
    decreases |t| - c.pos, 0
  {
    hide Type, Fits, Exec, Clean, Flat, Frozen;
    FailFits(t, c);
    if Is2(t, c, 's', 't') {
      TypeFits(t, c.Skip(2));
      TryFits(t, c, c.pos + 2, Type(t, c.Skip(2)));
    }
  }

  lemma {:induction false} ScopeFits(t: CString, c: Core, args: bool)
    requires Good(t, c)
    ensures Fits(t, c.pos, ScopeName(t, c, args), 2)
    decreases |t| - c.pos, 0
  {
    hide Type, UnqualifiedName, TemplateArgs, Fits, Exec, Clean, Flat, Frozen;
    FailFits(t, c);
    Joins(t, c.pos);
    if Is2(t, c, 's', 'r') {
      var y := Type(t, c.Skip(2));
      TypeFits(t, c.Skip(2));
      TryFits(t, c, c.pos + 2, y);
      if y.ok {
        var n := y.Then(UnqualifiedName(t, y.c));
        UnqualifiedFits(t, y.c);
        UndoFits(t, c.pos, n, c);
        if n.ok {
          ArgsFit(t, n.c);
          UndoFits(t, c.pos, n.Then(TemplateArgs(t, n.c)), c);
        }
      }
    }
  }

  lemma {:induction false} OperationsFit(t: CString, c: Core)
    requires Good(t, c)
    ensures Fits(t, c.pos, Operations(t, c), 2)
    decreases |t| - c.pos, 3
  {
    hide Operation, Fits, Exec, Clean, Flat, Frozen;
    Joins(t, c.pos);
    OperationFits(t, c, 3);
    OperationFits(t, c, 2);
    OperationFits(t, c, 1);
  }

  lemma {:induction false} UnresolvedFits(t: CString, c: Core)
    requires Good(t, c)
    ensures Fits(t, c.pos, UnresolvedName(t, c), 2)
    decreases |t| - c.pos, 1
  {
    hide ScopeName, Fits, Exec, Clean, Flat, Frozen;
    Joins(t, c.pos);
    ScopeFits(t, c, true);
    ScopeFits(t, c, false);
  }

  lemma {:induction false} ExpressionFits(t: CString, c: Core)
    requires Good(t, c)
    ensures Fits(t, c.pos, Expression(t, c), 2)
    decreases |t| - c.pos, 4
  {
    hide TemplateParam, ExprPrimary, Operations, SizeofType, UnresolvedName, Fits, Exec, Clean, Flat, Frozen;
    Joins(t, c.pos);
    ParamFits(t, c);
    PrimaryFits(t, c);
    if c.expr <= MAX_LEVELS {
      var c1 := c.(expr := c.expr + 1);
      OperationsFit(t, c1);
      SizeofFits(t, c1);
      UnresolvedFits(t, c1);
      var q := TemplateParam(t, c).Then(ExprPrimary(t, c));
      var o := q.Then(Operations(t, c1));
      var s := o.Then(SizeofType(t, c1));
      var n := s.Then(UnresolvedName(t, c1));
      if !TemplateParam(t, c).ok && !q.ok {
        if o.ok {
          MoveFits(t, c.pos, o, LeaveExpr(o));
        } else if !s.ok && n.ok {
          MoveFits(t, c.pos, n, LeaveExpr(n));
        }
      }
    }
  }

  lemma {:induction false} LiteralFits(t: CString, c: Core, float: bool)
    requires Good(t, c)
    ensures Fits(t, c.pos, Literal(t, c, float), 2)
    decreases |t| - c.pos, 0
  {
    hide Type, LiteralValue, Fits, Exec, Clean, Flat, Frozen;
    FailFits(t, c);
    if Is(t, c, 'L') {
      var y := Type(t, c.Skip(1));
      TypeFits(t, c.Skip(1));
      TryFits(t, c, c.pos + 1, y);
      if Literal(t, c, float).ok { MoveFits(t, c.pos, y, Literal(t, c, float)); }
    }
  }

  lemma {:induction false} LiteralNameFits(t: CString, c: Core)
    requires Good(t, c)
    ensures Fits(t, c.pos, LiteralName(t, c), 2)
    decreases |t| - c.pos, 0
  {
    hide MangledName, Fits, Exec, Clean, Flat, Frozen;
    FailFits(t, c);
    if Is(t, c, 'L') {
      MangledFits(t, c.Skip(1));
      TryFits(t, c, c.pos + 1, MangledName(t, c.Skip(1)));
      EatFits(t, c.pos, MangledName(t, c.Skip(1)));
    }
  }

  lemma {:induction false} LiteralEncodingFits(t: CString, c: Core)
    requires Good(t, c)
    ensures Fits(t, c.pos, LiteralEncoding(t, c), 2)
    decreases |t| - c.pos, 0
  {
    hide Encoding, Fits, Exec, Clean, Flat, Frozen;
    FailFits(t, c);
    if Is2(t, c, 'L', 'Z') {
      EncodingFits(t, c.Skip(2));
      TryFits(t, c, c.pos + 2, Encoding(t, c.Skip(2)));
      EatFits(t, c.pos, Encoding(t, c.Skip(2)));
    }
  }

  lemma {:induction false} PrimaryFits(t: CString, c: Core)
    requires Good(t, c)
    ensures Fits(t, c.pos, ExprPrimary(t, c), 2)
    decreases |t| - c.pos, 1
  {
    hide Literal, LiteralName, LiteralEncoding, Fits, Exec, Clean, Flat, Frozen;
    Joins(t, c.pos);
    LiteralFits(t, c, false);
    LiteralFits(t, c, true);
    LiteralNameFits(t, c);
    LiteralEncodingFits(t, c);
  }

  // ---------------------------------------------------------------- whole runs

  /** So many characters, and so many names of "n" characters each. */
  function Cost(chars: nat, names: nat, n: nat): nat { chars + n * names }

  lemma {:induction false} CostsAdd(a: Trace, b: Trace, n: nat)
    ensures Cost(Chars(a), Repeats(a), n) + Cost(Chars(b), Repeats(b), n) ==
              Cost(Chars(Both(a, b)), Repeats(Both(a, b)), n)
    ensures Cost(MostChars(a), MostRepeats(a), n) <= Cost(MostChars(Both(a, b)), MostRepeats(Both(a, b)), n)
    ensures Cost(Chars(a), Repeats(a), n) + Cost(MostChars(b), MostRepeats(b), n) <=
              Cost(MostChars(Both(a, b)), MostRepeats(Both(a, b)), n)
  {
    hide Chars, Repeats, MostChars, MostRepeats;
    BothLeave(a, b);
    BothMost(a, b);
    Times(n, Repeats(a), Repeats(b));
    Times(n, Repeats(a), MostRepeats(b));
    TimesGrows(n, MostRepeats(a), MostRepeats(Both(a, b)));
    TimesGrows(n, Repeats(a) + MostRepeats(b), MostRepeats(Both(a, b)));
  }

  lemma {:induction false} BothLeave(a: Trace, b: Trace)
    ensures Chars(Both(a, b)) == Chars(a) + Chars(b) && Repeats(Both(a, b)) == Repeats(a) + Repeats(b)
  {
  }

  lemma {:induction false} BothMost(a: Trace, b: Trace)
    ensures MostChars(Both(a, b)) == Max(MostChars(a), Chars(a) + MostChars(b))
    ensures MostRepeats(Both(a, b)) == Max(MostRepeats(a), Repeats(a) + MostRepeats(b))
  {
    hide Chars, Repeats, Max;
  }

  lemma Times(n: nat, a: nat, b: nat)
    ensures n * (a + b) == n * a + n * b
  {
  }

  lemma TimesGrows(n: nat, a: nat, b: nat)
    requires a <= b
    ensures n * a <= n * b
  {
    Times(n, a, b - a);
  }

  /** What one text adds to an output whose remembered name has at most "n" characters. */
  lemma PrintAdds(o: Out, str: string, n: nat)
    requires |str| <= n && |o.prev| <= n
    ensures var r := o.Print(str);
            |r.prev| <= n && |r.text| <= |o.text| + |str| + 1 && r.high <= Max(o.high, |o.text| + |str| + 1)
    ensures o.PrintPrev().prev == o.Print(o.prev).prev && o.PrintPrev().text == o.Print(o.prev).text
    ensures o.PrintPrev().high == o.Print(o.prev).high
  {
    hide Tape.Print;
  }

  lemma SeparateAdds(o: Out, n: nat)
    requires |o.prev| <= n
    ensures var r := o.Separate();
            |r.prev| <= n && |r.text| <= |o.text| + 2 && r.high <= Max(o.high, |o.text| + 2)
  {
    hide Tape.Print;
  }

  lemma RetractedAdds(o: Out, b: Out)
    requires b == b.Rollback(o.Separate())
    ensures b.Cancel().text == o.text && b.Cancel().prev == o.prev && b.Cancel().high == b.high
  {
    hide Tape.Print, Tape.Cancel;
  }

  /** From "o" to "r" no more is printed than so many characters and names, on the way so many. */
  predicate Adds(o: Out, r: Out, tr: Trace, n: nat) {
    && |r.prev| <= n && |r.text| <= |o.text| + Cost(Chars(tr), Repeats(tr), n)
    && r.high <= Max(o.high, |o.text| + Cost(MostChars(tr), MostRepeats(tr), n))
  }

  lemma {:induction false} ActionAdds(act: Trace, o: Out, n: nat)
    requires Short(act, n) && |o.prev| <= n
    requires act.Nothing? || act.Emit? || act.EmitPrev? || act.Separator? || act.Deeper?
    ensures Adds(o, Exec(act, o), act, n)
  {
    hide Out.Print, Out.PrintPrev, Out.Separate;
    SeparateAdds(o, n);
    PrintAdds(o, if act.Emit? then act.str else o.prev, n);
  }

  lemma {:induction false} BothAdd(a: Trace, b: Trace, o: Out, p: Out, r: Out, n: nat)
    requires Adds(o, p, a, n) && Adds(p, r, b, n)
    ensures Adds(o, r, Both(a, b), n)
  {
    hide Cost, Chars, Repeats, MostChars, MostRepeats;
    CostsAdd(a, b, n);
  }

  lemma {:induction false} RetractedAdd(b: Trace, o: Out, r: Out, n: nat)
    requires Adds(o.Separate(), r, b, n) && r == r.Rollback(o.Separate()) && |o.prev| <= n
    ensures Adds(o, r.Cancel(), Retracted(b), n)
  {
    hide Out.Separate, Out.Cancel, Out.Rollback;
    SeparateAdds(o, n);
    RetractedAdds(o, r);
  }

  lemma AttemptAdds(b: Trace, o: Out, r: Out, n: nat)
    requires Adds(o, r, b, n) && |o.prev| <= n
    ensures Adds(o, r.Rollback(o), Attempt(b), n)
  {
  }

  lemma NestedAdds(b: Trace, o: Out, r: Out, n: nat)
    requires Adds(o.(nest := 0), r, b, n)
    ensures Adds(o, r.(nest := o.nest), Nested(b), n)
  {
  }

  lemma MutedAdds(b: Trace, o: Out, r: Out, n: nat)
    requires |o.prev| <= n && r == o.(append := false).(nest := r.nest)
    ensures Adds(o, r.(append := o.append), Muted(b), n)
  {
  }

  /** A run prints no more than its trace says. */
  lemma {:induction false} RunAdds(tr: Trace, o: Out, n: nat)
    requires Clean(tr) && Short(tr, n) && |o.prev| <= n
    ensures Adds(o, Exec(tr, o), tr, n) && |Exec(tr, o).prev| <= n
  {
    hide Out.Print, Out.PrintPrev, Out.Separate, Out.Cancel, Cost, Chars, Repeats, MostChars, MostRepeats;
    match tr
    case Retracted(b) =>
      ActionAdds(Separator, o, n);
      RunAdds(b, o.Separate(), n);
      FrozenKeeps(b, o.Separate());
      RetractedAdd(b, o, Exec(b, o.Separate()), n);
    case Both(a, b) =>
      RunAdds(a, o, n);
      RunAdds(b, Exec(a, o), n);
      BothAdd(a, b, o, Exec(a, o), Exec(tr, o), n);
    case Attempt(b) =>
      RunAdds(b, o, n);
      AttemptAdds(b, o, Exec(b, o), n);
    case Muted(b) =>
      MutedKeeps(b, o.(append := false));
      MutedAdds(b, o, Exec(b, o.(append := false)), n);
    case Nested(b) =>
      RunAdds(b, o.(nest := 0), n);
      NestedAdds(b, o, Exec(b, o.(nest := 0)), n);
    case _ => ActionAdds(tr, o, n);
  }

  lemma TopLevelFits(t: CString)
    ensures var tr := TopLevel(t).tr; Short(tr, |t| + 20) && MostChars(tr) <= 21 * |t| && MostRepeats(tr) <= |t|
  {
    hide MangledName, CloneSuffix, Exec, Clean, Flat, Frozen;
    MangledFits(t, ENTRY);
  }

  lemma EnoughForAll(n: nat, chars: nat, names: nat)
    requires chars <= 21 * n && names <= n
    ensures Cost(chars, names, n + 20) <= n * (n + 41)
  {
    TimesGrows(n + 20, names, n);
    Times(n, n + 20, 21);
  }

  /**
   * A buffer of more than n * (n + 41) bytes is enough for every name of n characters, its terminator included:
   * nothing is clipped, not even in an attempt that is abandoned.
   */
  lemma RoomIsEnough(t: CString, bytes: string, behind: nat -> char)
    requires |bytes| > |t| * (|t| + 41)
    ensures !Clipped(Exec(TopLevel(t).tr, Start(bytes, behind)))
  {
    hide TopLevel, Exec, Keeps, Sound, Cost;
    var tr, o := TopLevel(t).tr, Start(bytes, behind);
    TopLevelFits(t);
    RunAdds(tr, o, |t| + 20);
    EnoughForAll(|t|, MostChars(tr), MostRepeats(tr));
    StartSound(bytes, behind);
    RunSound(tr, o);
    SameLength(o, Exec(tr, o));
  }
}

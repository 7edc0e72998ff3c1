/** The parts of a mangled name that hold no other names, each read where it stands: numbers, identifiers, the tables. */
module MangledParts {
  import opened CText
  import opened Output
  import opened Recogniser
  import opened DemangleCases
  import opened DemangleReads
  import P = DemangleProperties
  import M = Mangling

  // ---------------------------------------------------------------- where it is written

  /** "s" stands at "p", and something behind it. */
  predicate At(t: CString, p: nat, s: string) { p + |s| < |t| && t[p..p + |s|] == s }

  lemma Cut(t: CString, p: nat, a: string, b: string)
    requires At(t, p, a + b)
    ensures At(t, p, a) && At(t, p + |a|, b) && p + |a| + |b| == p + |a + b| < |t|
  {
    var s := t[p..p + |a + b|];
    assert t[p..p + |a|] == s[..|a|] && t[p + |a|..p + |a| + |b|] == s[|a|..];
  }

  lemma Char(t: CString, p: nat, s: string, i: nat)
    requires At(t, p, s) && i < |s|
    ensures p + i + 1 < |t| && t[p + i] == s[i] && s[i] != '\0'
  {
    assert t[p..p + |s|][i] == t[p + i];
  }

  // ---------------------------------------------------------------- numbers and words

  lemma DigitsAreRead(t: CString, p: nat, n: nat)
    requires At(t, p, Written(n)) && !IsDigit(t[p + |Written(n)|])
    ensures var q := p + |Written(n)|;
            && RunEnd(t, p, IsDigit) == q && q > p && AllDigits(t[p..q]) && Decimal(t[p..q]) == n && IsDigit(t[p])
  {
    WrittenMeans(n);
    var q := p + |Written(n)|;
    forall i | p <= i < q ensures IsDigit(t[i]) { assert t[i] == t[p..q][i - p]; }
    P.RunEndsAt(t, p, q, IsDigit);
  }

  lemma NumberIsRead(t: CString, c: Core, n: int)
    requires Good(t, c) && -INT_MAX <= n <= INT_MAX && At(t, c.pos, M.Number(n))
    requires !IsDigit(t[c.pos + |M.Number(n)|])
    ensures Number(t, c) == NumRes(true, c.Skip(|M.Number(n)|), n)
  {
    hide At, RunEnd, Written, AllDigits, Decimal, INT_MAX;
    if n < 0 {
      Cut(t, c.pos, "n", Written(-n));
      Char(t, c.pos, "n", 0);
      DigitsAreRead(t, c.pos + 1, -n);
    } else {
      DigitsAreRead(t, c.pos, n);
    }
  }

  lemma SourceIsRead(t: CString, c: Core, id: string)
    requires Good(t, c) && M.IsId(id) && At(t, c.pos, M.Sized(id))
    ensures SourceName(t, c) == Res(true, c.Skip(|M.Sized(id)|), Emit(M.ShowId(id)))
    ensures M.ShowId(id) != "" && M.ShowId(id)[0] != '<' && IsDigit(t[c.pos])
  {
    hide RunEnd, Written, Decimal, Number;
    Cut(t, c.pos, Written(|id|), id);
    var d := c.Skip(|Written(|id|)|);
    Char(t, d.pos, id, 0);
    assert M.Number(|id|) == Written(|id|);
    NumberIsRead(t, c, |id|);
    DigitsAreRead(t, c.pos, |id|);
    IdIsRead(t, d.pos, id);
  }

  lemma IdIsRead(t: CString, p: nat, id: string)
    requires At(t, p, id)
    ensures IdentifierText(t, p, |id|) == M.ShowId(id)
  {
    if |id| >= 12 {
      assert t[p..p + 11] == t[p..p + |id|][..11];
    }
  }

  lemma SourceReads(t: CString, c: Core, id: string)
    requires Good(t, c) && M.IsId(id) && At(t, c.pos, M.Sized(id))
    ensures Reads(t, SourceName(t, c), c.pos + |M.Sized(id)|, c.arg, M.ShowId(id)) && IsDigit(t[c.pos])
  {
    hide SourceName, M.Sized, M.ShowId, Written;
    SourceIsRead(t, c, id);
    EmitReads(t, c.Skip(|M.Sized(id)|), M.ShowId(id));
  }

  // ---------------------------------------------------------------- tables

  /** Where the entry of a builtin type stands. */
  function BuiltinPlace(b: M.Builtin): nat {
    match b
    case Void => 0 case WideChar => 1 case Bool => 2 case Char => 3 case SignedChar => 4 case UnsignedChar => 5
    case Short => 6 case UnsignedShort => 7 case Int => 8 case UnsignedInt => 9 case Long => 10
    case UnsignedLong => 11 case LongLong => 12 case UnsignedLongLong => 13 case Int128 => 14
    case UnsignedInt128 => 15 case Float => 16 case Double => 17 case LongDouble => 18 case Float128 => 19
    case Ellipsis => 20
  }

  lemma BuiltinRows()
    ensures |SHORTER| == 10 && |LONGER| == 11
  {
  }

  lemma Shorter(b: M.Builtin)
    requires BuiltinPlace(b) < 10
    ensures SHORTER[BuiltinPlace(b)].first == b.Code() && SHORTER[BuiltinPlace(b)].name == b.Text()
  {
  }

  lemma Longer(b: M.Builtin)
    requires BuiltinPlace(b) >= 10
    ensures var i := BuiltinPlace(b) - 10; i < |LONGER| && LONGER[i].first == b.Code() && LONGER[i].name == b.Text()
  {
  }

  lemma BuiltinEntry(b: M.Builtin)
    ensures BuiltinPlace(b) < |BUILTINS|
    ensures BUILTINS[BuiltinPlace(b)].first == b.Code() && BUILTINS[BuiltinPlace(b)].name == b.Text()
  {
    hide SHORTER, LONGER, M.Builtin.Code, M.Builtin.Text, BuiltinPlace;
    BuiltinRows();
    if BuiltinPlace(b) < 10 { Shorter(b); } else { Longer(b); }
  }

  /** No two entries have the same letter. */
  lemma BuiltinLetters(i: nat, j: nat)
    requires i < j < |BUILTINS|
    ensures BUILTINS[i].first != BUILTINS[j].first
  {
  }

  lemma BuiltinFound(b: M.Builtin)
    ensures var k := Lookup(BUILTINS, First(b.Code()), 0); k < |BUILTINS| && BUILTINS[k].name == b.Text()
  {
    hide BUILTINS;
    BuiltinEntry(b);
    var k := Lookup(BUILTINS, First(b.Code()), 0);
    if k < BuiltinPlace(b) { BuiltinLetters(k, BuiltinPlace(b)); }
  }

  lemma LibraryFound(l: M.Library)
    ensures var k := Lookup(SUBSTITUTIONS, Second(l.Code()), 0);
            k < |SUBSTITUTIONS| && SUBSTITUTIONS[k].name == l.Class()
  {
  }

  function OperatorPlace(o: M.Operator): nat {
    match o
    case New => 0 case NewArray => 1 case Delete => 2 case DeleteArray => 3 case UnaryPlus => 4 case Negate => 5
    case AddressOf => 6 case Dereference => 7 case Complement => 8 case Plus => 9 case Minus => 10 case Times => 11
    case Divide => 12 case Remainder => 13 case BitAnd => 14 case BitOr => 15 case BitXor => 16 case Assign => 17
    case PlusAssign => 18 case MinusAssign => 19 case TimesAssign => 20 case DivideAssign => 21
    case RemainderAssign => 22 case AndAssign => 23 case OrAssign => 24 case XorAssign => 25 case ShiftLeft => 26
    case ShiftRight => 27 case ShiftLeftAssign => 28 case ShiftRightAssign => 29 case Equal => 30 case NotEqual => 31
    case Less => 32 case Greater => 33 case LessEqual => 34 case GreaterEqual => 35 case Not => 36 case And => 37
    case Or => 38 case Increment => 39 case Decrement => 40 case Comma => 41 case MemberPointer => 42 case Arrow => 43
    case Call => 44 case Index => 45 case Question => 46 case SizeofType => 47 case SizeofExpression => 48
  }

  lemma Rows()
    ensures |UNARY| == 9 && |BINARY| == 8 && |ASSIGNING| == 9 && |SHIFTING| == 4 && |COMPARING| == 6
    ensures |LOGICAL| == 3 && |OTHER| == 10
  {
  }

  /** The row and the place in it of an entry. */
  lemma RowAt(i: nat)
    requires i < |OPERATORS|
    ensures |UNARY| == 9 && |BINARY| == 8 && |ASSIGNING| == 9 && |SHIFTING| == 4 && |COMPARING| == 6
    ensures |LOGICAL| == 3 && |OTHER| == 10 && i < 49
    ensures OPERATORS[i] == if i < 9 then UNARY[i] else if i < 17 then BINARY[i - 9] else if i < 26 then ASSIGNING[i - 17]
                            else if i < 30 then SHIFTING[i - 26] else if i < 36 then COMPARING[i - 30]
                            else if i < 39 then LOGICAL[i - 36] else OTHER[i - 39]
  {
    hide UNARY, BINARY, ASSIGNING, SHIFTING, COMPARING, LOGICAL, OTHER;
    Rows();
  }

  lemma Unary()
    ensures |UNARY| == 9
    ensures UNARY[0] == Abbrev('n', 'w', "new")
    ensures UNARY[1] == Abbrev('n', 'a', "new[]")
    ensures UNARY[2] == Abbrev('d', 'l', "delete")
    ensures UNARY[3] == Abbrev('d', 'a', "delete[]")
    ensures UNARY[4] == Abbrev('p', 's', "+")
    ensures UNARY[5] == Abbrev('n', 'g', "-")
    ensures UNARY[6] == Abbrev('a', 'd', "&")
    ensures UNARY[7] == Abbrev('d', 'e', "*")
    ensures UNARY[8] == Abbrev('c', 'o', "~")
  {
  }

  lemma Binary()
    ensures |BINARY| == 8
    ensures BINARY[0] == Abbrev('p', 'l', "+")
    ensures BINARY[1] == Abbrev('m', 'i', "-")
    ensures BINARY[2] == Abbrev('m', 'l', "*")
    ensures BINARY[3] == Abbrev('d', 'v', "/")
    ensures BINARY[4] == Abbrev('r', 'm', "%")
    ensures BINARY[5] == Abbrev('a', 'n', "&")
    ensures BINARY[6] == Abbrev('o', 'r', "|")
    ensures BINARY[7] == Abbrev('e', 'o', "^")
  {
  }

  lemma Assigning()
    ensures |ASSIGNING| == 9
    ensures ASSIGNING[0] == Abbrev('a', 'S', "=")
    ensures ASSIGNING[1] == Abbrev('p', 'L', "+=")
    ensures ASSIGNING[2] == Abbrev('m', 'I', "-=")
    ensures ASSIGNING[3] == Abbrev('m', 'L', "*=")
    ensures ASSIGNING[4] == Abbrev('d', 'V', "/=")
    ensures ASSIGNING[5] == Abbrev('r', 'M', "%=")
    ensures ASSIGNING[6] == Abbrev('a', 'N', "&=")
    ensures ASSIGNING[7] == Abbrev('o', 'R', "|=")
    ensures ASSIGNING[8] == Abbrev('e', 'O', "^=")
  {
  }

  lemma Shifting()
    ensures |SHIFTING| == 4
    ensures SHIFTING[0] == Abbrev('l', 's', "<<")
    ensures SHIFTING[1] == Abbrev('r', 's', ">>")
    ensures SHIFTING[2] == Abbrev('l', 'S', "<<=")
    ensures SHIFTING[3] == Abbrev('r', 'S', ">>=")
  {
  }

  lemma Comparing()
    ensures |COMPARING| == 6
    ensures COMPARING[0] == Abbrev('e', 'q', "==")
    ensures COMPARING[1] == Abbrev('n', 'e', "!=")
    ensures COMPARING[2] == Abbrev('l', 't', "<")
    ensures COMPARING[3] == Abbrev('g', 't', ">")
    ensures COMPARING[4] == Abbrev('l', 'e', "<=")
    ensures COMPARING[5] == Abbrev('g', 'e', ">=")
  {
  }

  lemma Logical()
    ensures |LOGICAL| == 3
    ensures LOGICAL[0] == Abbrev('n', 't', "!")
    ensures LOGICAL[1] == Abbrev('a', 'a', "&&")
    ensures LOGICAL[2] == Abbrev('o', 'o', "||")
  {
  }

  lemma Other()
    ensures |OTHER| == 10
    ensures OTHER[0] == Abbrev('p', 'p', "++")
    ensures OTHER[1] == Abbrev('m', 'm', "--")
    ensures OTHER[2] == Abbrev('c', 'm', ",")
    ensures OTHER[3] == Abbrev('p', 'm', "->*")
    ensures OTHER[4] == Abbrev('p', 't', "->")
    ensures OTHER[5] == Abbrev('c', 'l', "()")
    ensures OTHER[6] == Abbrev('i', 'x', "[]")
    ensures OTHER[7] == Abbrev('q', 'u', "?")
    ensures OTHER[8] == Abbrev('s', 't', "sizeof")
    ensures OTHER[9] == Abbrev('s', 'z', "sizeof")
  {
  }

  /** No two entries have the same letters. */
  lemma OperatorLetters(i: nat, j: nat)
    requires i < j < |OPERATORS|
    ensures OPERATORS[i].first != OPERATORS[j].first || OPERATORS[i].second != OPERATORS[j].second
  {
    hide OPERATORS, UNARY, BINARY, ASSIGNING, SHIFTING, COMPARING, LOGICAL, OTHER;
    RowAt(i);
    RowAt(j);
    Unary(); Binary(); Assigning(); Shifting(); Comparing(); Logical(); Other();
  }

  predicate IsEntry(e: Abbrev, o: M.Operator) { e.first == o.Code()[0] && e.second == o.Code()[1] && e.name == o.Text() }

  lemma UnaryEntry(o: M.Operator)
    requires OperatorPlace(o) < 9
    ensures OperatorPlace(o) < |UNARY| && IsEntry(UNARY[OperatorPlace(o)], o)
  {
    hide UNARY;
    Unary();
  }

  lemma BinaryEntry(o: M.Operator)
    requires 9 <= OperatorPlace(o) < 17
    ensures OperatorPlace(o) - 9 < |BINARY| && IsEntry(BINARY[OperatorPlace(o) - 9], o)
  {
    hide BINARY;
    Binary();
  }

  lemma AssigningEntry(o: M.Operator)
    requires 17 <= OperatorPlace(o) < 26
    ensures OperatorPlace(o) - 17 < |ASSIGNING| && IsEntry(ASSIGNING[OperatorPlace(o) - 17], o)
  {
    hide ASSIGNING;
    Assigning();
  }

  lemma ShiftingEntry(o: M.Operator)
    requires 26 <= OperatorPlace(o) < 30
    ensures OperatorPlace(o) - 26 < |SHIFTING| && IsEntry(SHIFTING[OperatorPlace(o) - 26], o)
  {
    hide SHIFTING;
    Shifting();
  }

  lemma ComparingEntry(o: M.Operator)
    requires 30 <= OperatorPlace(o) < 36
    ensures OperatorPlace(o) - 30 < |COMPARING| && IsEntry(COMPARING[OperatorPlace(o) - 30], o)
  {
    hide COMPARING;
    Comparing();
  }

  lemma LogicalEntry(o: M.Operator)
    requires 36 <= OperatorPlace(o) < 39
    ensures OperatorPlace(o) - 36 < |LOGICAL| && IsEntry(LOGICAL[OperatorPlace(o) - 36], o)
  {
    hide LOGICAL;
    Logical();
  }

  lemma OtherEntry(o: M.Operator)
    requires 39 <= OperatorPlace(o) < 49
    ensures OperatorPlace(o) - 39 < |OTHER| && IsEntry(OTHER[OperatorPlace(o) - 39], o)
  {
    hide OTHER;
    Other();
  }

  lemma OperatorEntry(o: M.Operator)
    ensures OperatorPlace(o) < |OPERATORS| && IsEntry(OPERATORS[OperatorPlace(o)], o)
  {
    var i := OperatorPlace(o);
    assert i < 49;
    Size();
    hide OPERATORS, UNARY, BINARY, ASSIGNING, SHIFTING, COMPARING, LOGICAL, OTHER, IsEntry, OperatorPlace;
    RowAt(i);
    if i < 9 {
      UnaryEntry(o);
    } else if i < 17 {
      BinaryEntry(o);
    } else if i < 26 {
      AssigningEntry(o);
    } else if i < 30 {
      ShiftingEntry(o);
    } else if i < 36 {
      ComparingEntry(o);
    } else if i < 39 {
      LogicalEntry(o);
    } else {
      OtherEntry(o);
    }
  }

  lemma Size()
    ensures |OPERATORS| == 49
  {
    hide UNARY, BINARY, ASSIGNING, SHIFTING, COMPARING, LOGICAL, OTHER;
    Rows();
  }

  lemma OperatorFound(o: M.Operator)
    ensures var k := Lookup(OPERATORS, Pair(o.Code()[0], o.Code()[1]), 0);
            k < |OPERATORS| && OPERATORS[k].name == o.Text()
  {
    hide OPERATORS, M.Operator.Code, M.Operator.Text;
    OperatorEntry(o);
    var k := Lookup(OPERATORS, Pair(o.Code()[0], o.Code()[1]), 0);
    if k < OperatorPlace(o) { OperatorLetters(k, OperatorPlace(o)); }
  }

  // ---------------------------------------------------------------- parts without names in them

  lemma BuiltinAt(t: CString, c: Core, b: M.Builtin)
    requires Good(t, c) && t[c.pos] == b.Code()
    ensures BuiltinType(t, c) == Res(true, c.Skip(1), Emit(b.Text()))
  {
    hide BUILTINS, Lookup, SourceName, M.Builtin.Code, M.Builtin.Text, Clean, Flat, Frozen, Exec;
    BuiltinFound(b);
  }

  lemma BuiltinIsRead(t: CString, c: Core, b: M.Builtin)
    requires Good(t, c) && t[c.pos] == b.Code()
    ensures Reads(t, BuiltinType(t, c), c.pos + 1, c.arg, b.Text())
  {
    hide BuiltinType, Reads, M.Builtin.Code, M.Builtin.Text;
    BuiltinAt(t, c, b);
    NotLast(t, c, b);
    EmitReads(t, c.Skip(1), b.Text());
  }

  lemma NotLast(t: CString, c: Core, b: M.Builtin)
    requires Good(t, c) && t[c.pos] == b.Code()
    ensures Good(t, c.Skip(1))
  {
  }

  lemma ExtensionIsRead(t: CString, c: Core, id: string)
    requires Good(t, c) && M.IsId(id) && At(t, c.pos, "u" + M.Sized(id))
    ensures Reads(t, BuiltinType(t, c), c.pos + 1 + |M.Sized(id)|, c.arg, M.ShowId(id))
  {
    hide BUILTINS, Lookup, SourceName, M.Sized, Reads;
    Cut(t, c.pos, "u", M.Sized(id));
    Char(t, c.pos, "u", 0);
    NoBuiltinU();
    SourceReads(t, c.Skip(1), id);
    ReadIsOk(t, SourceName(t, c.Skip(1)), c.pos + 1 + |M.Sized(id)|, c.arg, M.ShowId(id));
  }

  lemma NoBuiltinU()
    ensures Lookup(BUILTINS, First('u'), 0) == |BUILTINS|
  {
    assert forall i :: 0 <= i < |BUILTINS| ==> BUILTINS[i].first != 'u';
  }

  lemma OperatorIsRead(t: CString, c: Core, o: M.Operator)
    requires Good(t, c) && At(t, c.pos, o.Code())
    ensures Reads(t, OperatorName(t, c), c.pos + 2, c.arg, o.Shown())
  {
    hide OPERATORS, Lookup, M.Operator.Text, M.Operator.Shown, OperatorTrace, Adds;
    Char(t, c.pos, o.Code(), 0);
    Char(t, c.pos, o.Code(), 1);
    OperatorFound(o);
    OperatorIsShown(o);
    hide M.Operator.Code;
    var k := Lookup(OPERATORS, Pair(t[c.pos], t[c.pos + 1]), 0);
    OperatorAdds(OPERATORS[k].name);
    OperatorIsPlain(t, c, k, o.Shown());
  }

  lemma OperatorIsShown(o: M.Operator)
    ensures o.Text() != "" && OperatorText(o.Text()) == o.Shown()
  {
    hide M.Operator.Text, M.Operator.IsWord;
    assert "operator" + (" " + o.Text()) == "operator " + o.Text();
    assert "" + o.Text() == o.Text();
  }

  lemma OrdinalIsRead(t: CString, c: Core, k: M.Ordinal)
    requires Good(t, c) && M.IsOrdinal(k) && At(t, c.pos, "T" + M.OrdinalCode(k))
    ensures Reads(t, TemplateParam(t, c), c.pos + 1 + |M.OrdinalCode(k)|, c.arg, "?") && t[c.pos] == 'T'
  {
    hide Number, Written, RunEnd, Decimal;
    var s := M.OrdinalCode(k);
    Cut(t, c.pos, "T", s);
    Char(t, c.pos, "T", 0);
    EmitReads(t, c.Skip(1 + |s|), "?");
    if k.After? {
      Cut(t, c.pos + 1, Written(k.n), "_");
      Char(t, c.pos + 1 + |Written(k.n)|, "_", 0);
      NumberIsRead(t, c.Skip(1), k.n);
      DigitsAreRead(t, c.pos + 1, k.n);
    } else {
      Char(t, c.pos + 1, "_", 0);
    }
  }

  lemma SeqIdIsRead(t: CString, p: nat, id: string)
    requires M.IsSeqId(id) && At(t, p, id + "_")
    ensures var q := p + |id|; RunEnd(t, p, IsSeqChar) == q && q + 1 < |t| && t[q] == '_' && (id != "" ==> t[p] == id[0])
  {
    hide RunEnd;
    Cut(t, p, id, "_");
    Char(t, p + |id|, "_", 0);
    forall i | p <= i < p + |id| ensures IsSeqChar(t[i]) && (i == p ==> t[p] == id[0]) { Char(t, p, id, i - p); }
    P.RunEndsAt(t, p, p + |id|, IsSeqChar);
  }

  /** S, digits and capital letters, _. */
  lemma EarlierIsRead(t: CString, c: Core, id: string)
    requires Good(t, c) && M.IsSeqId(id) && At(t, c.pos, "S" + (id + "_"))
    ensures Reads(t, Substitution(t, c), c.pos + |id| + 2, c.arg, "?") && t[c.pos] == 'S' && t[c.pos + 1] != 't'
  {
    hide RunEnd, M.IsSeqId, Reads;
    Cut(t, c.pos, "S", id + "_");
    Char(t, c.pos, "S", 0);
    SeqIdIsRead(t, c.pos + 1, id);
    if id != "" { NoSmallLetter(id); }
    EmitReads(t, c.(pos := c.pos + |id| + 2), "?");
  }

  lemma NoSmallLetter(id: string)
    requires M.IsSeqId(id) && id != ""
    ensures id[0] != 't' && id[0] != '_'
  {
  }

  lemma LibraryIsRead(t: CString, c: Core, l: M.Library)
    requires Good(t, c) && At(t, c.pos, ['S', l.Code()])
    ensures Substitution(t, c) == Res(true, c.Skip(2), StdTrace(l.Class()))
    ensures t[c.pos] == 'S' && t[c.pos + 1] != 't' && StartsName(l.Class())
  {
    hide SUBSTITUTIONS, Lookup;
    Char(t, c.pos, ['S', l.Code()], 0);
    Char(t, c.pos, ['S', l.Code()], 1);
    assert NumberedSubstitution(t, c) == Fail(c) by { P.RunEndsAt(t, c.pos + 1, c.pos + 1, IsSeqChar); }
    LibraryFound(l);
  }

  lemma LibraryReads(t: CString, c: Core, l: M.Library)
    requires Good(t, c) && At(t, c.pos, ['S', l.Code()])
    ensures Reads(t, Substitution(t, c), c.pos + 2, c.arg, l.Text()) && t[c.pos] == 'S' && t[c.pos + 1] != 't'
  {
    hide Substitution, StdTrace, M.Library.Code, Exec;
    LibraryIsRead(t, c, l);
    LibraryFollows("", l.Class());
    assert Adds(StdTrace(l.Class()), l.Text());
  }

  lemma StdIsRead(t: CString, c: Core)
    requires Good(t, c) && At(t, c.pos, "St")
    ensures Reads(t, Substitution(t, c), c.pos + 2, c.arg, "std") && t[c.pos] == 'S'
  {
    hide Lookup;
    Char(t, c.pos, "St", 0);
    Char(t, c.pos, "St", 1);
    assert NumberedSubstitution(t, c) == Fail(c) by { P.RunEndsAt(t, c.pos + 1, c.pos + 1, IsSeqChar); }
    assert Lookup(SUBSTITUTIONS, Second('t'), 0) == 0 by { StdIsFirst(); }
    EmitReads(t, c.Skip(2), "std");
  }

  lemma StdIsFirst()
    ensures Lookup(SUBSTITUTIONS, Second('t'), 0) == 0 && SUBSTITUTIONS[0].name == ""
  {
    assert SUBSTITUTIONS[0].second == 't';
  }

  // ---------------------------------------------------------------- how they begin

  /** Does not continue what may stand before it. */
  predicate Apart(ch: char) { ch != 'I' && ch != 'B' && ch != '_' }

  /** The beginning of a type, a word or a component. */
  predicate Opens(ch: char) { IsDigit(ch) || IsLower(ch) || ch in "LSNPROCGKVUFAMDT" }

  lemma OpeningsAreApart(ch: char)
    requires Opens(ch)
    ensures Apart(ch) && ch !in "EIJXYZ"
  {
  }

  predicate OpensWord(ch: char) { IsDigit(ch) || ch == 'L' || IsLower(ch) }

  lemma WordStarts(w: M.Word)
    requires M.WordOk(w)
    ensures M.MangleWord(w) != ""
    ensures var ch := M.MangleWord(w)[0]; OpensWord(ch) && (w.Identifier? || w.Internal? ==> !IsLower(ch))
  {
    hide M.MangleType;
    match w
    case Identifier(id, tags) =>
      SizedStarts(id);
      assert M.MangleWord(w)[0] == M.Sized(id)[0];
    case Internal(_, _) =>
    case VendorOper(_, _) =>
    case Oper(_) =>
    case Conversion(_) =>
  }

  lemma SizedStarts(id: string)
    ensures M.Sized(id) != "" && IsDigit(M.Sized(id)[0])
  {
    WrittenMeans(|id|);
    assert M.Sized(id)[0] == Written(|id|)[0];
  }

  lemma UnscopedStarts(u: M.Unscoped)
    requires M.UnscopedOk(u)
    ensures M.MangleUnscoped(u) != ""
    ensures var ch := M.MangleUnscoped(u)[0];
            (OpensWord(ch) || ch == 'S') && (u.Global? && (u.w.Identifier? || u.w.Internal?) ==> !IsLower(ch))
            && (u.InStd? ==> ch == 'S')
  {
    hide M.MangleWord;
    WordStarts(u.w);
  }

  lemma NameStarts(n: M.Name)
    requires M.NameOk(n)
    ensures M.MangleName(n) != ""
    ensures var ch := M.MangleName(n)[0];
            && (OpensWord(ch) || ch == 'S' || ch == 'N') && (ch == 'N' <==> n.Nested?)
            && (M.NamesClass(n) ==> !IsLower(ch))
  {
    hide M.MangleUnscoped, M.MangleArgs, M.ManglePath, M.UnscopedOk, M.ArgsOk, M.PathOk;
    match n
    case Plain(u) => UnscopedStarts(u);
    case Instance(Known(u), _) => UnscopedStarts(u);
    case _ =>
  }

  lemma TypeStarts(x: M.Type)
    requires M.TypeOk(x)
    ensures M.MangleType(x) != ""
    ensures var ch := M.MangleType(x)[0];
            && Opens(ch) && (ch == 'r' || ch == 'V' || ch == 'K' ==> x.Qualified? && x.q.Code() == ch)
  {
    hide M.MangleName, M.MangleArgs, M.MangleTypes, M.NameOk, M.NamesClass, M.ArgsOk, M.TypesOk;
    match x
    case Class(name) => NameStarts(name);
    case _ =>
  }

  lemma ComponentStarts(c: M.Component, args: M.Args)
    requires M.ComponentOk(c, args)
    ensures M.MangleComponent(c) != "" && Opens(M.MangleComponent(c)[0])
    ensures c.Part? ==> OpensWord(M.MangleComponent(c)[0])
  {
    hide M.MangleWord, M.ArgsOk;
    match c
    case Part(w) => WordStarts(w);
    case _ =>
  }
}

/** Types, arguments, names and encodings: wherever the mangled term stands, and nothing continues it, it is read to its
    last character, and shown as it is to be shown. */
module MangledNames {
  import opened CText
  import opened Output
  import opened Recogniser
  import opened DemangleCases
  import opened DemangleReads
  import opened MangledParts
  import P = DemangleProperties
  import M = Mangling

  // ---------------------------------------------------------------- types

  /** "s" stands there, nothing continues it, and "n" more lists of arguments can be counted. */
  predicate Stands(t: CString, c: Core, s: string, n: nat) {
    Good(t, c) && At(t, c.pos, s) && Apart(t[c.pos + |s|]) && c.arg + n <= MAX_LEVELS + 1
  }

  /** It is read, no more and no less, and shown so. */
  ghost predicate IsRead(t: CString, c: Core, r: Res, s: string, n: nat, shown: string) {
    Reads(t, r, c.pos + |s|, c.arg + n, shown)
  }

  lemma {:induction false} TypeIsRead(t: CString, c: Core, x: M.Type)
    requires M.TypeOk(x) && Stands(t, c, M.MangleType(x), M.TypeLists(x))
    ensures IsRead(t, c, Type(t, c), M.MangleType(x), M.TypeLists(x), M.ShowType(x))
    decreases x, 1
  {
    hide Stands, IsRead, Type, M.MangleName, M.MangleTypes, M.MangleArgs, M.NameOk, M.NamesClass, M.TypesOk, M.ArgsOk;
    match x
    case Basic(b) => BasicIsRead(t, c, b);
    case Extension(id) => ExtensionTypeIsRead(t, c, id);
    case Indirect(i, y) => IndirectIsRead(t, c, i, y);
    case Qualified(_, _) => QualifiedIsRead(t, c, x);
    case Class(name) => ClassIsRead(t, c, name);
    case Function(external, params) => FunctionIsRead(t, c, external, params);
    case Array(size, y) => ArrayIsRead(t, c, size, y);
    case Member(_, _) => MemberIsRead(t, c, x);
    case Expansion(y) => ExpansionIsRead(t, c, y);
    case Vendor(id, y) => VendorIsRead(t, c, id, y);
    case Parameter(k) => ParameterIsRead(t, c, k);
    case ParameterInstance(k, args) => ParameterInstanceIsRead(t, c, k, args);
    case Earlier(id) => EarlierTypeIsRead(t, c, id);
    case Standard(l) => StandardIsRead(t, c, l);
  }

  lemma BasicIsRead(t: CString, c: Core, b: M.Builtin)
    requires Stands(t, c, [b.Code()], 0)
    ensures IsRead(t, c, Type(t, c), [b.Code()], 0, b.Text())
  {
    hide Type, PlainType, BuiltinType, Reads, M.Builtin.Text;
    Char(t, c.pos, [b.Code()], 0);
    BuiltinIsRead(t, c, b);
    PlainIsBuiltin(t, c, c.pos + 1, c.arg, b.Text());
    TypeIsPlain(t, c, c.pos + 1, c.arg, b.Text());
  }

  lemma ExtensionTypeIsRead(t: CString, c: Core, id: string)
    requires M.IsId(id) && Stands(t, c, "u" + M.Sized(id), 0)
    ensures IsRead(t, c, Type(t, c), "u" + M.Sized(id), 0, M.ShowId(id))
  {
    hide Type, PlainType, BuiltinType, Reads, M.Sized, M.ShowId;
    Char(t, c.pos, "u" + M.Sized(id), 0);
    ExtensionIsRead(t, c, id);
    var p := c.pos + 1 + |M.Sized(id)|;
    PlainIsBuiltin(t, c, p, c.arg, M.ShowId(id));
    TypeIsPlain(t, c, p, c.arg, M.ShowId(id));
  }

  lemma {:induction false} IndirectIsRead(t: CString, c: Core, i: M.Indirection, y: M.Type)
    requires M.TypeOk(y) && Stands(t, c, [i.Code()] + M.MangleType(y), M.TypeLists(y))
    ensures IsRead(t, c, Type(t, c), [i.Code()] + M.MangleType(y), M.TypeLists(y), M.ShowType(y))
    decreases y, 2
  {
    hide Type, Reads, M.TypeOk, M.MangleType, M.TypeLists, M.ShowType;
    var s := M.MangleType(y);
    Cut(t, c.pos, [i.Code()], s);
    Char(t, c.pos, [i.Code()], 0);
    TypeIsRead(t, c.Skip(1), y);
    TypeIsPointer(t, c, c.pos + 1 + |s|, c.arg + M.TypeLists(y), M.ShowType(y));
  }

  /** "x" without "q", if it is there. */
  function Peeled(x: M.Type, q: M.Qualifier): M.Type { if x.Qualified? && x.q == q then x.t else x }

  lemma PeelOne(t: CString, c: Core, x: M.Type, q: M.Qualifier)
    requires M.TypeOk(x) && Stands(t, c, M.MangleType(x), M.TypeLists(x))
    ensures M.TypeOk(Peeled(x, q)) && M.ShowType(Peeled(x, q)) == M.ShowType(x)
    ensures t[c.pos] == q.Code() <==> x.Qualified? && x.q == q
    ensures var d := if t[c.pos] == q.Code() then c.Skip(1) else c;
            && Stands(t, d, M.MangleType(Peeled(x, q)), M.TypeLists(Peeled(x, q)))
            && M.TypeLists(Peeled(x, q)) == M.TypeLists(x)
            && d.pos + |M.MangleType(Peeled(x, q))| == c.pos + |M.MangleType(x)|
  {
    hide At, M.TypeOk, M.MangleType, M.TypeLists, M.ShowType, M.Qualifier.Code, Opens;
    TypeStarts(x);
    Char(t, c.pos, M.MangleType(x), 0);
    if x.Qualified? {
      QualifiedUnfolds(x);
      Cut(t, c.pos, [x.q.Code()], M.MangleType(x.t));
      CodesDiffer(x.q, q);
    } else {
      QualifierCode(q);
    }
  }

  lemma QualifierCode(q: M.Qualifier)
    ensures q.Code() == 'r' || q.Code() == 'V' || q.Code() == 'K'
  {
  }

  lemma QualifiedUnfolds(x: M.Type)
    requires x.Qualified?
    ensures M.TypeOk(x) <==> M.TypeOk(x.t)
    ensures M.MangleType(x) == [x.q.Code()] + M.MangleType(x.t)
    ensures M.TypeLists(x) == M.TypeLists(x.t) && M.ShowType(x) == M.ShowType(x.t)
  {
    hide M.Qualifier.Code;
  }

  lemma CodesDiffer(a: M.Qualifier, b: M.Qualifier)
    ensures a.Code() == b.Code() <==> a == b
  {
  }

  /** Up to three qualifiers in the order of the grammar are read at once. */
  lemma {:induction false} QualifiedIsRead(t: CString, c: Core, x: M.Type)
    requires M.TypeOk(x) && x.Qualified? && Stands(t, c, M.MangleType(x), M.TypeLists(x))
    ensures IsRead(t, c, Type(t, c), M.MangleType(x), M.TypeLists(x), M.ShowType(x))
    decreases x, 0
  {
    hide Type, Reads, M.TypeOk, M.MangleType, M.TypeLists, M.ShowType, At;
    PeelOne(t, c, x, M.Restrict);
    var x1, c1 := Peeled(x, M.Restrict), if t[c.pos] == 'r' then c.Skip(1) else c;
    PeelOne(t, c1, x1, M.Volatile);
    var x2, c2 := Peeled(x1, M.Volatile), if t[c1.pos] == 'V' then c1.Skip(1) else c1;
    PeelOne(t, c2, x2, M.Const);
    var x3, c3 := Peeled(x2, M.Const), if t[c2.pos] == 'K' then c2.Skip(1) else c2;
    assert CVQualifiers(t, c) == Res(true, c3, Nothing);
    TypeIsRead(t, c3, x3);
    TypeIsQualified(t, c, c.pos + |M.MangleType(x)|, c.arg + M.TypeLists(x), M.ShowType(x));
  }

  lemma {:induction false} ClassIsRead(t: CString, c: Core, n: M.Name)
    requires M.NameOk(n) && M.NamesClass(n) && Stands(t, c, M.MangleName(n), M.NameLists(n))
    ensures IsRead(t, c, Type(t, c), M.MangleName(n), M.NameLists(n), M.ShowName(n))
    decreases n, 2
  {
    hide Type, PlainType, Name, Reads, M.NameOk, M.NamesClass, M.MangleName, M.NameLists, M.ShowName;
    NameStarts(n);
    Char(t, c.pos, M.MangleName(n), 0);
    NameIsRead(t, c, n);
    var p, q := c.pos + |M.MangleName(n)|, c.arg + M.NameLists(n);
    PlainIsName(t, c, p, q, M.ShowName(n));
    TypeIsPlain(t, c, p, q, M.ShowName(n));
  }

  lemma FunctionStands(t: CString, c: Core, external: bool, params: M.Types)
    requires M.TypesOk(params)
    requires Stands(t, c, (if external then "FY" else "F") + (M.MangleTypes(params) + "E"), M.TypesLists(params))
    ensures Good(t, c) && t[c.pos] == 'F'
    ensures var y := if t[c.pos + 1] == 'Y' then c.Skip(2) else c.Skip(1);
            var n := |M.MangleTypes(params)|;
            && Stands(t, y, M.MangleTypes(params), M.TypesLists(params)) && y.pos + n < |t| && t[y.pos + n] == 'E'
            && y.pos + n + 1 == c.pos + |(if external then "FY" else "F") + (M.MangleTypes(params) + "E")|
  {
    hide M.TypesOk, M.MangleTypes, M.TypesLists;
    var head, s := if external then "FY" else "F", M.MangleTypes(params);
    TypesStart(params);
    ThreeParts(t, c.pos, head, s, "E");
    hide At;
    Char(t, c.pos, head, 0);
    Char(t, c.pos + |head|, s, 0);
    Char(t, c.pos + |head| + |s|, "E", 0);
    if external { Char(t, c.pos, head, 1); }
  }

  lemma {:induction false} FunctionIsRead(t: CString, c: Core, external: bool, params: M.Types)
    requires M.TypesOk(params)
    requires Stands(t, c, (if external then "FY" else "F") + (M.MangleTypes(params) + "E"), M.TypesLists(params))
    ensures IsRead(t, c, Type(t, c), (if external then "FY" else "F") + (M.MangleTypes(params) + "E"),
                   M.TypesLists(params), "()")
    decreases params, 2
  {
    hide Type, PlainType, BareFunctionType, TypePlus, Reads, Stands, At, M.TypesOk, M.MangleTypes, M.TypesLists;
    FunctionStands(t, c, external, params);
    var y := if t[c.pos + 1] == 'Y' then c.Skip(2) else c.Skip(1);
    TypesAreRead(t, y, params);
    var p, q := y.pos + |M.MangleTypes(params)|, c.arg + M.TypesLists(params);
    SignatureReads(t, y, p, q);
    PlainIsFunction(t, c, p, q, "()");
    TypeIsPlain(t, c, p + 1, q, "()");
  }

  lemma TypesStart(ts: M.Types)
    requires M.TypesOk(ts)
    ensures M.MangleTypes(ts) != "" && Opens(M.MangleTypes(ts)[0]) && M.MangleTypes(ts)[0] != 'Y'
  {
    hide M.TypeOk, M.MangleType;
    TypeStarts(ts.t);
  }

  /** Where no word starts, the name that is tried fails. */
  lemma NoNameAt(t: CString, c: Core)
    requires Good(t, c) && (t[c.pos] == 'A' || t[c.pos] == 'M' || t[c.pos] == 'T')
    ensures NoName(t, c)
  {
    hide Name, LocalName, Substitution, Silent;
    TemplateOrSubstitutionDud(t, Behind(t, c));
    NameFails(t, c);
  }

  lemma {:induction false} ArrayIsRead(t: CString, c: Core, size: nat, y: M.Type)
    requires M.TypeOk(y) && size <= INT_MAX
    requires Stands(t, c, "A" + (Written(size) + ("_" + M.MangleType(y))), M.TypeLists(y))
    ensures IsRead(t, c, Type(t, c), "A" + (Written(size) + ("_" + M.MangleType(y))), M.TypeLists(y), M.ShowType(y))
    decreases y, 2
  {
    hide Type, PlainType, Name, LocalName, Behind, Reads, Written, Number, NoName, Frozen, Clean, Flat, At, INT_MAX;
    hide M.TypeOk, M.MangleType, M.TypeLists, M.ShowType, M.Number;
    var s := M.MangleType(y);
    NumberBetween(t, c.pos, "A", size, s);
    Char(t, c.pos, "A", 0);
    NoNameAt(t, c);
    var d := Behind(t, c);
    MarkedNumberIsRead(t, d.Skip(1), size);
    TypeIsRead(t, Number(t, d.Skip(1)).c.Skip(1), y);
    var p, q := c.pos + 2 + |Written(size)| + |s|, c.arg + M.TypeLists(y);
    PlainIsArray(t, c, p, q, M.ShowType(y));
    TypeIsPlain(t, c, p, q, M.ShowType(y));
  }

  /** The two types of a member, apart from each other. */
  lemma MemberStands(t: CString, c: Core, x: M.Type)
    requires M.TypeOk(x) && x.Member? && Stands(t, c, M.MangleType(x), M.TypeLists(x))
    ensures Good(t, c) && t[c.pos] == 'M' && Stands(t, c.Skip(1), M.MangleType(x.of), M.TypeLists(x.of))
    ensures var e := c.(pos := c.pos + 1 + |M.MangleType(x.of)|, arg := c.arg + M.TypeLists(x.of));
            Stands(t, e, M.MangleType(x.t), M.TypeLists(x.t))
  {
    hide At, M.TypeOk, M.MangleType, M.TypeLists, M.ShowType;
    MemberUnfolds(x);
    var a, b := M.MangleType(x.of), M.MangleType(x.t);
    ThreeParts(t, c.pos, "M", a, b);
    Char(t, c.pos, "M", 0);
    TypeStarts(x.t);
    Char(t, c.pos + 1 + |a|, b, 0);
    OpeningsAreApart(b[0]);
  }

  lemma StandsAlike(t: CString, c: Core, d: Core, s: string, n: nat)
    requires Stands(t, c, s, n) && Good(t, d) && d.pos == c.pos && d.arg == c.arg
    ensures Stands(t, d, s, n)
  {
  }

  lemma IsReadTo(t: CString, c: Core, r: Res, s: string, n: nat, shown: string)
    requires IsRead(t, c, r, s, n, shown)
    ensures Reads(t, r, c.pos + |s|, c.arg + n, shown) && Reaches(t, r, c.pos + |s|, c.arg + n)
  {
  }

  lemma {:induction false} MemberIsRead(t: CString, c: Core, x: M.Type)
    requires M.TypeOk(x) && x.Member? && Stands(t, c, M.MangleType(x), M.TypeLists(x))
    ensures IsRead(t, c, Type(t, c), M.MangleType(x), M.TypeLists(x), M.ShowType(x))
    decreases x, 0
  {
    hide Type, PlainType, Name, LocalName, Behind, Reads, NoName, Stands, Frozen, Clean, Flat;
    hide Exec, At, M.TypeOk, M.MangleType, M.TypeLists, M.ShowType;
    MemberUnfolds(x);
    MemberStands(t, c, x);
    NoNameAt(t, c);
    var d := Behind(t, c).Skip(1);
    StandsAlike(t, c.Skip(1), d, M.MangleType(x.of), M.TypeLists(x.of));
    TypeIsRead(t, d, x.of);
    var y := Type(t, d);
    IsReadTo(t, d, y, M.MangleType(x.of), M.TypeLists(x.of), M.ShowType(x.of));
    var e := c.(pos := c.pos + 1 + |M.MangleType(x.of)|, arg := c.arg + M.TypeLists(x.of));
    StandsAlike(t, e, y.c, M.MangleType(x.t), M.TypeLists(x.t));
    TypeIsRead(t, y.c, x.t);
    var p, q := y.c.pos + |M.MangleType(x.t)|, y.c.arg + M.TypeLists(x.t);
    PlainIsMember(t, c, y.c.pos, y.c.arg, M.ShowType(x.of), p, q, M.ShowType(x.t));
    TypeIsPlain(t, c, p, q, M.ShowType(x.of) + M.ShowType(x.t));
  }

  lemma MemberUnfolds(x: M.Type)
    requires x.Member?
    ensures M.TypeOk(x) <==> M.TypeOk(x.of) && M.TypeOk(x.t)
    ensures M.MangleType(x) == "M" + (M.MangleType(x.of) + M.MangleType(x.t))
    ensures M.TypeLists(x) == M.TypeLists(x.of) + M.TypeLists(x.t)
    ensures M.ShowType(x) == M.ShowType(x.of) + M.ShowType(x.t)
  {
  }

  lemma {:induction false} ExpansionIsRead(t: CString, c: Core, y: M.Type)
    requires M.TypeOk(y) && Stands(t, c, "Dp" + M.MangleType(y), M.TypeLists(y))
    ensures IsRead(t, c, Type(t, c), "Dp" + M.MangleType(y), M.TypeLists(y), M.ShowType(y))
    decreases y, 2
  {
    hide Type, Reads, M.TypeOk, M.MangleType, M.TypeLists, M.ShowType;
    var s := M.MangleType(y);
    Cut(t, c.pos, "Dp", s);
    Char(t, c.pos, "Dp", 0);
    Char(t, c.pos, "Dp", 1);
    TypeIsRead(t, c.Skip(2), y);
    TypeIsExpansion(t, c, c.pos + 2 + |s|, c.arg + M.TypeLists(y), M.ShowType(y));
  }

  lemma {:induction false} VendorIsRead(t: CString, c: Core, id: string, y: M.Type)
    requires M.IsId(id) && M.TypeOk(y) && Stands(t, c, "U" + (M.Sized(id) + M.MangleType(y)), M.TypeLists(y))
    ensures IsRead(t, c, Type(t, c), "U" + (M.Sized(id) + M.MangleType(y)), M.TypeLists(y),
                   M.ShowId(id) + M.ShowType(y))
    decreases y, 2
  {
    hide Type, SourceName, Reads, M.Sized, M.ShowId, M.TypeOk, M.MangleType, M.TypeLists, M.ShowType;
    var w, s := M.Sized(id), M.MangleType(y);
    Cut(t, c.pos, "U", w + s);
    Char(t, c.pos, "U", 0);
    Cut(t, c.pos + 1, w, s);
    SourceReads(t, c.Skip(1), id);
    ReadIsOk(t, SourceName(t, c.Skip(1)), c.pos + 1 + |w|, c.arg, M.ShowId(id));
    TypeIsRead(t, SourceName(t, c.Skip(1)).c, y);
    TypeIsVendor(t, c, c.pos + 1 + |w| + |s|, c.arg + M.TypeLists(y), M.ShowId(id), M.ShowType(y));
  }

  lemma ParameterIsRead(t: CString, c: Core, k: M.Ordinal)
    requires M.IsOrdinal(k) && Stands(t, c, "T" + M.OrdinalCode(k), 0)
    ensures IsRead(t, c, Type(t, c), "T" + M.OrdinalCode(k), 0, "?")
  {
    hide Type, PlainType, Name, Behind, TemplateParam, Reads, NoName, M.OrdinalCode;
    OrdinalIsRead(t, c, k);
    OrdinalIsRead(t, Behind(t, c), k);
    NoNameAt(t, c);
    TypeIsParameter(t, c, c.pos + 1 + |M.OrdinalCode(k)|, c.arg, "?");
  }

  lemma {:induction false} ParameterInstanceIsRead(t: CString, c: Core, k: M.Ordinal, args: M.Args)
    requires M.IsOrdinal(k) && args != M.NoArgs && M.ArgsOk(args)
    requires Stands(t, c, ("T" + M.OrdinalCode(k)) + M.MangleArgs(args), M.ArgsLists(args))
    ensures IsRead(t, c, Type(t, c), ("T" + M.OrdinalCode(k)) + M.MangleArgs(args), M.ArgsLists(args), "?<>")
    decreases args, 3
  {
    hide Type, PlainType, Name, Behind, TemplateParam, TemplateArgs, Reads, NoName;
    hide M.OrdinalCode, M.ArgsOk, M.MangleArgs, M.ArgsLists;
    var h, s := "T" + M.OrdinalCode(k), M.MangleArgs(args);
    Cut(t, c.pos, h, s);
    OrdinalIsRead(t, c, k);
    var d := Behind(t, c);
    OrdinalIsRead(t, d, k);
    NoNameAt(t, c);
    var m := TemplateParam(t, d);
    ReadIsOk(t, m, c.pos + |h|, c.arg, "?");
    ArgsAreRead(t, m.c, args);
    TypeIsInstance(t, c, c.pos + |h|, c.arg, "?", c.pos + |h| + |s|, c.arg + M.ArgsLists(args));
    assert "?" + Marks("?", "<>") == "?<>";
  }

  lemma NoNameAtSubstitution(t: CString, c: Core)
    requires Good(t, c) && t[c.pos] == 'S' && t[c.pos + 1] != 't'
    requires var s := Substitution(t, Behind(t, c)); s.ok ==> t[s.c.pos] != 'I'
    ensures NoName(t, c)
  {
    hide Name, LocalName, Substitution, Silent;
    NameFails(t, c);
  }

  lemma SubstitutionIsRead(t: CString, c: Core, p: nat, q: nat, shown: string)
    requires Good(t, c) && t[c.pos] == 'S' && t[c.pos + 1] != 't'
    requires Reads(t, Substitution(t, Behind(t, c)), p, q, shown) && t[p] != 'I'
    ensures Reads(t, Type(t, c), p, q, shown)
  {
    hide Type, PlainType, Name, Behind, Substitution, Reads, NoName;
    ReadIsOk(t, Substitution(t, Behind(t, c)), p, q, shown);
    NoNameAtSubstitution(t, c);
    PlainIsSubstitution(t, c, p, q, shown);
    TypeIsPlain(t, c, p, q, shown);
  }

  lemma EarlierTypeIsRead(t: CString, c: Core, id: string)
    requires M.IsSeqId(id) && Stands(t, c, "S" + (id + "_"), 0)
    ensures IsRead(t, c, Type(t, c), "S" + (id + "_"), 0, "?")
  {
    hide Type, Behind, Substitution, Reads, M.IsSeqId;
    EarlierIsRead(t, c, id);
    EarlierIsRead(t, Behind(t, c), id);
    SubstitutionIsRead(t, c, c.pos + |id| + 2, c.arg, "?");
  }

  lemma StandardIsRead(t: CString, c: Core, l: M.Library)
    requires Stands(t, c, ['S', l.Code()], 0)
    ensures IsRead(t, c, Type(t, c), ['S', l.Code()], 0, l.Text())
  {
    hide Type, Behind, Substitution, Reads, M.Library.Code, M.Library.Text;
    LibraryReads(t, c, l);
    LibraryReads(t, Behind(t, c), l);
    SubstitutionIsRead(t, c, c.pos + 2, c.arg, l.Text());
  }

  lemma TypesStand(t: CString, c: Core, ts: M.Types)
    requires M.TypesOk(ts) && ts.More? && Stands(t, c, M.MangleTypes(ts), M.TypesLists(ts))
    ensures Stands(t, c, M.MangleType(ts.t), M.TypeLists(ts.t)) && M.TypeOk(ts.t) && M.TypesOk(ts.rest)
    ensures forall e: Core :: Good(t, e) && e.pos == c.pos + |M.MangleType(ts.t)| && e.arg == c.arg + M.TypeLists(ts.t)
              ==> Stands(t, e, M.MangleTypes(ts.rest), M.TypesLists(ts.rest))
  {
    var a, b := M.MangleType(ts.t), M.MangleTypes(ts.rest);
    TypesStart(ts.rest);
    TypesUnfold(ts);
    hide At, M.TypesOk, M.TypeOk, M.MangleType, M.TypeLists, M.MangleTypes, M.TypesLists;
    Cut(t, c.pos, a, b);
    Char(t, c.pos + |a|, b, 0);
    OpeningsAreApart(b[0]);
  }

  lemma TypesUnfold(ts: M.Types)
    ensures M.MangleTypes(ts) == if ts.More? then M.MangleType(ts.t) + M.MangleTypes(ts.rest) else M.MangleType(ts.t)
    ensures M.TypesLists(ts) == M.TypeLists(ts.t) + if ts.More? then M.TypesLists(ts.rest) else 0
    ensures M.TypesOk(ts) <==> M.TypeOk(ts.t) && (ts.More? ==> M.TypesOk(ts.rest))
  {
    hide M.TypeOk, M.MangleType, M.TypeLists;
  }

  lemma {:induction false} TypesAreRead(t: CString, c: Core, ts: M.Types)
    requires M.TypesOk(ts) && Stands(t, c, M.MangleTypes(ts), M.TypesLists(ts))
    requires Ends(t, c.Skip(|M.MangleTypes(ts)|))
    ensures Reaches(t, TypePlus(t, c), c.pos + |M.MangleTypes(ts)|, c.arg + M.TypesLists(ts))
    ensures Reaches(t, TypeStar(t, c), c.pos + |M.MangleTypes(ts)|, c.arg + M.TypesLists(ts))
    decreases ts, 1
  {
    hide Type, TypePlus, TypeStar, Reads, Stands, IsRead, Frozen, Clean, Flat, Exec;
    hide At, M.TypesOk, M.TypeOk, M.MangleType, M.TypeLists, M.MangleTypes, M.TypesLists, M.ShowType;
    TypesUnfold(ts);
    if ts.More? { TypesStand(t, c, ts); }
    TypeIsRead(t, c, ts.t);
    var y := Type(t, c);
    IsReadTo(t, c, y, M.MangleType(ts.t), M.TypeLists(ts.t), M.ShowType(ts.t));
    if ts.More? { TypesAreRead(t, y.c, ts.rest); } else { NoMoreTypes(t, y.c); }
    FirstType(t, c, c.pos + |M.MangleTypes(ts)|, c.arg + M.TypesLists(ts));
  }

  // ---------------------------------------------------------------- arguments

  lemma NumberStarts(n: int)
    ensures M.Number(n) != "" && (IsDigit(M.Number(n)[0]) || M.Number(n)[0] == 'n')
  {
    hide Written, Decimal;
    WrittenMeans(if n < 0 then -n else n);
  }

  lemma ArgStarts(a: M.Arg)
    requires M.ArgOk(a)
    ensures M.MangleArg(a) != "" && Apart(M.MangleArg(a)[0])
  {
    hide M.MangleType, M.TypeOk, M.MangleList, M.ArgsOk, M.Mangle, M.EncodingOk, M.IsFraction;
    if a.OfType? { TypeStarts(a.t); }
  }

  lemma ListStarts(args: M.Args)
    requires M.ArgsOk(args)
    ensures Apart((M.MangleList(args) + "E")[0])
  {
    hide M.MangleArg, M.ArgOk;
    if args.Args? { ArgStarts(args.a); }
  }

  lemma ListUnfolds(args: M.Args)
    requires args.Args?
    ensures M.ArgsOk(args) <==> M.ArgOk(args.a) && M.ArgsOk(args.rest)
    ensures M.MangleList(args) + "E" == M.MangleArg(args.a) + (M.MangleList(args.rest) + "E")
    ensures M.ListLists(args) == M.ArgLists(args.a) + M.ListLists(args.rest)
    ensures M.MangleArgs(args) == "I" + (M.MangleList(args) + "E") && M.ArgsLists(args) == M.ListLists(args) + 1
  {
    hide M.ArgOk, M.MangleArg, M.ArgLists;
    var a, b := M.MangleArg(args.a), M.MangleList(args.rest);
    assert (a + b) + "E" == a + (b + "E");
  }

  /** The rest of a list stands there, and room for the level of one more argument, that fails. */
  predicate ListStands(t: CString, c: Core, args: M.Args) {
    Good(t, c) && At(t, c.pos, M.MangleList(args) + "E") && c.arg + M.ListLists(args) <= MAX_LEVELS
  }

  lemma FirstStands(t: CString, c: Core, args: M.Args)
    requires M.ArgsOk(args) && args.Args? && ListStands(t, c, args)
    ensures M.ArgOk(args.a) && M.ArgsOk(args.rest) && Stands(t, c, M.MangleArg(args.a), M.ArgLists(args.a) + 1)
    ensures ListStands(t, c.(pos := c.pos + |M.MangleArg(args.a)|, arg := c.arg + M.ArgLists(args.a)), args.rest)
  {
    hide At, M.ArgsOk, M.ArgOk, M.MangleArg, M.MangleList, M.ArgLists, M.ListLists;
    ListUnfolds(args);
    var a, b := M.MangleArg(args.a), M.MangleList(args.rest) + "E";
    Cut(t, c.pos, a, b);
    ListStarts(args.rest);
    Char(t, c.pos + |a|, b, 0);
  }

  lemma ListAlike(t: CString, c: Core, d: Core, args: M.Args)
    requires ListStands(t, c, args) && Good(t, d) && d.pos == c.pos && d.arg == c.arg
    ensures ListStands(t, d, args)
  {
  }

  lemma ListEnds(t: CString, c: Core, args: M.Args)
    requires ListStands(t, c, args)
    ensures Good(t, c) && c.pos + |M.MangleList(args)| < |t| && t[c.pos + |M.MangleList(args)|] == 'E'
  {
    hide M.MangleList;
    Cut(t, c.pos, M.MangleList(args), "E");
    Char(t, c.pos + |M.MangleList(args)|, "E", 0);
  }

  lemma EmptyList(t: CString, c: Core)
    requires ListStands(t, c, M.NoArgs)
    ensures t[c.pos] == 'E' && c.arg <= MAX_LEVELS && M.MangleList(M.NoArgs) == "" && M.ListLists(M.NoArgs) == 0
  {
    ListEnds(t, c, M.NoArgs);
  }

  lemma {:induction false} ListIsRead(t: CString, c: Core, args: M.Args)
    requires M.ArgsOk(args) && ListStands(t, c, args)
    ensures Reaches(t, TemplateArgStar(t, c), c.pos + |M.MangleList(args)|, c.arg + M.ListLists(args) + 1)
    ensures args.Args? ==>
              Reaches(t, TemplateArgPlus(t, c), c.pos + |M.MangleList(args)|, c.arg + M.ListLists(args) + 1)
    decreases args, 0
  {
    hide TemplateArg, TemplateArgStar, TemplateArgPlus, Stands, ListStands, Frozen, Clean, Flat, Exec, At;
    hide M.ArgsOk, M.ArgOk, M.MangleArg, M.MangleList, M.ArgLists, M.ListLists;
    ListEnds(t, c, args);
    if args.Args? {
      ListLength(args);
      FirstStands(t, c, args);
      ArgIsRead(t, c, args.a);
      var d := TemplateArg(t, c).c;
      ListAlike(t, c.(pos := c.pos + |M.MangleArg(args.a)|, arg := c.arg + M.ArgLists(args.a)), d, args.rest);
      ListIsRead(t, d, args.rest);
      FirstArg(t, c, d.pos + |M.MangleList(args.rest)|, d.arg + M.ListLists(args.rest) + 1);
    } else {
      EmptyList(t, c);
      NoArg(t, c);
    }
  }

  lemma ListLength(args: M.Args)
    requires args.Args?
    ensures |M.MangleList(args)| == |M.MangleArg(args.a)| + |M.MangleList(args.rest)|
    ensures M.ListLists(args) == M.ArgLists(args.a) + M.ListLists(args.rest)
  {
    hide M.MangleArg, M.ArgLists;
  }

  lemma {:induction false} ArgsAreRead(t: CString, c: Core, args: M.Args)
    requires args != M.NoArgs && M.ArgsOk(args) && Good(t, c) && At(t, c.pos, M.MangleArgs(args))
    requires c.arg + M.ArgsLists(args) <= MAX_LEVELS + 1
    ensures Reaches(t, TemplateArgs(t, c), c.pos + |M.MangleArgs(args)|, c.arg + M.ArgsLists(args)) && t[c.pos] == 'I'
    decreases args, 2
  {
    hide TemplateArgs, TemplateArgStar, TemplateArgPlus;
    ListUnfolds(args);
    hide M.ArgsOk, M.MangleArgs, M.MangleList, M.ArgsLists, M.ListLists;
    Cut(t, c.pos, "I", M.MangleList(args) + "E");
    Char(t, c.pos, "I", 0);
    var d := c.Skip(1);
    assert ListStands(t, d, args);
    ListEnds(t, d, args);
    hide ListStands;
    ListIsRead(t, d, args);
    ArgsReach(t, c, d.pos + |M.MangleList(args)|, d.arg + M.ListLists(args) + 1);
  }

  lemma {:induction false} ArgIsRead(t: CString, c: Core, a: M.Arg)
    requires M.ArgOk(a) && Stands(t, c, M.MangleArg(a), M.ArgLists(a) + 1)
    ensures Reaches(t, TemplateArg(t, c), c.pos + |M.MangleArg(a)|, c.arg + M.ArgLists(a))
    decreases a, 1
  {
    hide TemplateArg, Type, Stands, M.MangleType, M.MangleList, M.TypeLists, M.ListLists, M.TypeOk, M.ArgsOk, M.Unnumbered;
    hide M.EncodingOk, M.Mangle, M.Lists, M.IsFraction;
    match a
    case OfType(y) => TypeArgIsRead(t, c, y);
    case Constant(y, v) => ConstantIsRead(t, c, y, v);
    case Float(y, digits) => FractionIsRead(t, c, y, digits);
    case Address(e) => AddressArgIsRead(t, c, e);
    case Pack(args) => PackIsRead(t, c, args);
  }

  lemma {:induction false} TypeArgIsRead(t: CString, c: Core, y: M.Type)
    requires M.TypeOk(y) && Stands(t, c, M.MangleType(y), M.TypeLists(y) + 1)
    ensures Reaches(t, TemplateArg(t, c), c.pos + |M.MangleType(y)|, c.arg + M.TypeLists(y))
    decreases y, 2
  {
    hide TemplateArg, Type, Reads, IsRead, M.MangleType, M.TypeLists, M.TypeOk, M.ShowType;
    TypeStarts(y);
    Char(t, c.pos, M.MangleType(y), 0);
    OpeningsAreApart(t[c.pos]);
    var d := c.(arg := c.arg + 1);
    TypeIsRead(t, d, y);
    IsReadTo(t, d, Type(t, d), M.MangleType(y), M.TypeLists(y), M.ShowType(y));
    ArgIsType(t, c, c.pos + |M.MangleType(y)|, d.arg + M.TypeLists(y));
  }

  /** The number of a constant begins behind its type. */
  lemma ConstantStands(t: CString, c: Core, y: M.Type, v: int)
    requires M.TypeOk(y) && M.Unnumbered(y) && -INT_MAX <= v <= INT_MAX
    requires Stands(t, c, "L" + (M.MangleType(y) + (M.Number(v) + "E")), M.TypeLists(y) + 1)
    ensures Good(t, c) && c.arg <= MAX_LEVELS && t[c.pos] == 'L' && Nameless(t, c)
    ensures Stands(t, c.(arg := c.arg + 1).Skip(1), M.MangleType(y), M.TypeLists(y))
    ensures forall e: Core :: Good(t, e) && e.pos == c.pos + 1 + |M.MangleType(y)| ==>
              var n := Number(t, e); n.ok && n.c.pos == e.pos + |M.Number(v)| && t[n.c.pos] == 'E'
  {
    hide At, INT_MAX, Number, M.MangleType, M.TypeLists, M.TypeOk, M.Number;
    var s, n := M.MangleType(y), M.Number(v);
    Cut(t, c.pos, "L", s + (n + "E"));
    Char(t, c.pos, "L", 0);
    Cut(t, c.pos + 1, s, n + "E");
    Char(t, c.pos + 1, s, 0);
    NumberStarts(v);
    Cut(t, c.pos + 1 + |s|, n, "E");
    Char(t, c.pos + 1 + |s|, n, 0);
    Char(t, c.pos + 1 + |s| + |n|, "E", 0);
    forall e: Core | Good(t, e) && e.pos == c.pos + 1 + |s|
      ensures var x := Number(t, e); x.ok && x.c.pos == e.pos + |n| && t[x.c.pos] == 'E'
    {
      NumberIsRead(t, e, v);
    }
  }

  lemma {:induction false} ConstantIsRead(t: CString, c: Core, y: M.Type, n: int)
    requires M.TypeOk(y) && M.Unnumbered(y) && -INT_MAX <= n <= INT_MAX
    requires Stands(t, c, "L" + (M.MangleType(y) + (M.Number(n) + "E")), M.TypeLists(y) + 1)
    ensures Reaches(t, TemplateArg(t, c), c.pos + |"L" + (M.MangleType(y) + (M.Number(n) + "E"))|, c.arg + M.TypeLists(y))
    decreases y, 2
  {
    hide TemplateArg, ExprPrimary, Type, Number, Nameless, Stands, M.MangleType, M.TypeLists, M.TypeOk, M.ShowType, M.Number;
    ConstantStands(t, c, y, n);
    var d := c.(arg := c.arg + 1).Skip(1);
    TypeIsRead(t, d, y);
    IsReadTo(t, d, Type(t, d), M.MangleType(y), M.TypeLists(y), M.ShowType(y));
    var v := Number(t, Type(t, d).c);
    LiteralIsRead(t, c.(arg := c.arg + 1), d.pos + |M.MangleType(y)|, d.arg + M.TypeLists(y), v);
    ArgIsPrimary(t, c, v.c.pos + 1, d.arg + M.TypeLists(y));
  }

  /** The digits of a fraction, which are no number. */
  lemma FractionIsNoNumber(t: CString, c: Core, digits: string)
    requires Good(t, c) && M.IsFraction(digits) && At(t, c.pos, digits + "E")
    ensures RunEnd(t, c.pos, IsLowerHex) == c.pos + |digits| && c.pos + |digits| < |t| && t[c.pos + |digits|] == 'E'
    ensures var v := Number(t, c); v.ok ==> t[v.c.pos] != 'E'
  {
    hide At, RunEnd, Number;
    var p := c.pos + |digits|;
    Cut(t, c.pos, digits, "E");
    Char(t, p, "E", 0);
    forall i | c.pos <= i < p ensures IsLowerHex(t[i]) && t[i] == digits[i - c.pos] { Char(t, c.pos, digits, i - c.pos); }
    P.RunEndsAt(t, c.pos, p, IsLowerHex);
    var k :| 0 <= k < |digits| && !IsDigit(digits[k]);
    StopsBefore(t, c, c.pos + k);
  }

  /** A number without a sign ends at the first character that is no digit. */
  lemma StopsBefore(t: CString, c: Core, k: nat)
    requires Good(t, c) && c.pos <= k < |t| && !IsDigit(t[k]) && (forall i :: c.pos <= i <= k ==> IsLowerHex(t[i]))
    ensures var v := Number(t, c); v.ok ==> t[v.c.pos] != 'E'
  {
    hide Decimal;
    var q := RunEnd(t, c.pos, IsDigit);
    assert q <= k;
  }

  lemma FractionBegins(digits: string)
    requires M.IsFraction(digits)
    ensures digits != "" && Apart(digits[0])
  {
  }

  lemma FractionStands(t: CString, c: Core, y: M.Type, digits: string)
    requires M.TypeOk(y) && M.Unnumbered(y) && M.IsFraction(digits)
    requires Stands(t, c, "L" + (M.MangleType(y) + (digits + "E")), M.TypeLists(y) + 1)
    ensures Good(t, c) && c.arg <= MAX_LEVELS && t[c.pos] == 'L' && Nameless(t, c)
    ensures Stands(t, c.(arg := c.arg + 1).Skip(1), M.MangleType(y), M.TypeLists(y))
    ensures At(t, c.pos + 1 + |M.MangleType(y)|, digits + "E")
  {
    hide At, M.MangleType, M.TypeLists, M.TypeOk, M.IsFraction;
    var s := M.MangleType(y);
    ThreeParts(t, c.pos, "L", s, digits + "E");
    Char(t, c.pos, "L", 0);
    Char(t, c.pos + 1, s, 0);
    Char(t, c.pos + 1 + |s|, digits + "E", 0);
    FractionBegins(digits);
  }

  lemma {:induction false} FractionIsRead(t: CString, c: Core, y: M.Type, digits: string)
    requires M.TypeOk(y) && M.Unnumbered(y) && M.IsFraction(digits)
    requires Stands(t, c, "L" + (M.MangleType(y) + (digits + "E")), M.TypeLists(y) + 1)
    ensures Reaches(t, TemplateArg(t, c), c.pos + |"L" + (M.MangleType(y) + (digits + "E"))|, c.arg + M.TypeLists(y))
    decreases y, 2
  {
    hide TemplateArg, ExprPrimary, Type, Number, RunEnd, Nameless, Stands, At, M.IsFraction;
    hide M.MangleType, M.TypeLists, M.TypeOk, M.ShowType;
    FractionStands(t, c, y, digits);
    var d := c.(arg := c.arg + 1).Skip(1);
    TypeIsRead(t, d, y);
    IsReadTo(t, d, Type(t, d), M.MangleType(y), M.TypeLists(y), M.ShowType(y));
    var p, q := d.pos + |M.MangleType(y)|, d.arg + M.TypeLists(y);
    FractionIsNoNumber(t, Type(t, d).c, digits);
    FractionBegins(digits);
    FloatIsRead(t, c.(arg := c.arg + 1), p, q, p + |digits|);
    ArgIsPrimary(t, c, p + |digits| + 1, q);
  }

  lemma AddressStands(t: CString, c: Core, e: M.Encoding)
    requires Stands(t, c, "L_Z" + (M.Mangle(e) + "E"), M.Lists(e) + 1)
    ensures Good(t, c) && c.arg <= MAX_LEVELS && t[c.pos] == 'L' && Nameless(t, c) && Good(t, c.Skip(1))
    ensures Is2(t, c.Skip(1), '_', 'Z')
    ensures EncodingStands(t, c.(arg := c.arg + 1).Skip(3), M.Mangle(e), M.Lists(e))
    ensures c.pos + 3 + |M.Mangle(e)| < |t| && t[c.pos + 3 + |M.Mangle(e)|] == 'E'
  {
    hide At, M.Mangle, M.Lists;
    ThreeParts(t, c.pos, "L_Z", M.Mangle(e), "E");
    Char(t, c.pos, "L_Z", 0);
    Char(t, c.pos, "L_Z", 1);
    Char(t, c.pos, "L_Z", 2);
    Char(t, c.pos + 3 + |M.Mangle(e)|, "E", 0);
  }

  lemma {:induction false} AddressArgIsRead(t: CString, c: Core, e: M.Encoding)
    requires M.EncodingOk(e) && Stands(t, c, "L_Z" + (M.Mangle(e) + "E"), M.Lists(e) + 1)
    ensures Reaches(t, TemplateArg(t, c), c.pos + |"L_Z" + (M.Mangle(e) + "E")|, c.arg + M.Lists(e))
    decreases e, 3
  {
    hide TemplateArg, ExprPrimary, Encoding, Nameless, Stands, EncodingStands, M.EncodingOk, M.Mangle, M.Lists, M.Show;
    AddressStands(t, c, e);
    var d := c.(arg := c.arg + 1);
    EncodingIsRead(t, d.Skip(3), e);
    IsReadTo(t, d.Skip(3), Encoding(t, d.Skip(3)), M.Mangle(e), M.Lists(e), M.Show(e));
    var p, q := d.pos + 3 + |M.Mangle(e)|, d.arg + M.Lists(e);
    AddressIsRead(t, d, p, q);
    ArgIsPrimary(t, c, p + 1, q);
  }

  lemma {:induction false} PackIsRead(t: CString, c: Core, args: M.Args)
    requires M.ArgsOk(args) && Stands(t, c, "J" + (M.MangleList(args) + "E"), M.ListLists(args) + 2)
    ensures Reaches(t, TemplateArg(t, c), c.pos + |"J" + (M.MangleList(args) + "E")|, c.arg + M.ListLists(args) + 1)
    decreases args, 2
  {
    hide TemplateArg, TemplateArgStar, M.ArgsOk, M.MangleList, M.ListLists;
    Cut(t, c.pos, "J", M.MangleList(args) + "E");
    Char(t, c.pos, "J", 0);
    var d := c.(arg := c.arg + 1).Skip(1);
    assert ListStands(t, d, args);
    ListEnds(t, d, args);
    hide ListStands;
    ListIsRead(t, d, args);
    ArgIsPack(t, c, d.pos + |M.MangleList(args)|, d.arg + M.ListLists(args) + 1);
  }

  // ---------------------------------------------------------------- words

  /** A word stands there, and no tag or discriminator behind it; nor what would continue a conversion's type. */
  predicate WordStands(t: CString, c: Core, w: M.Word) {
    && Good(t, c) && At(t, c.pos, M.MangleWord(w)) && c.arg + M.WordLists(w) <= MAX_LEVELS + 1
    && (var ch := t[c.pos + |M.MangleWord(w)|]; ch != 'B' && ch != '_' && (w.Conversion? ==> ch != 'I'))
  }

  lemma {:induction false} TagsAreRead(t: CString, c: Core, tags: seq<string>)
    requires forall k :: 0 <= k < |tags| ==> M.IsId(tags[k])
    requires Good(t, c) && At(t, c.pos, M.MangleTags(tags)) && t[c.pos + |M.MangleTags(tags)|] != 'B'
    ensures TagsTo(t, c, c.pos + |M.MangleTags(tags)|) && AbiTagStar(t, c).c == c.Skip(|M.MangleTags(tags)|)
    decreases |tags|
  {
    hide AbiTagStar, SourceName, TagsTo, At, M.IsId, M.Sized;
    if tags == [] {
      NoTags(t, c);
    } else {
      var w, rest := M.Sized(tags[0]), M.MangleTags(tags[1..]);
      ThreeParts(t, c.pos, "B", w, rest);
      Char(t, c.pos, "B", 0);
      SourceIsRead(t, c.Skip(1), tags[0]);
      var d := c.Skip(1 + |w|);
      TagsAreRead(t, d, tags[1..]);
      OneTag(t, c, d.pos + |rest|);
    }
  }

  /** What a word is remembered as. */
  function Known(w: M.Word): string { if w.Identifier? || w.Internal? then M.ShowId(w.id) else "" }

  lemma {:induction false} WordIsLinked(t: CString, c: Core, w: M.Word, class_: string)
    requires M.WordOk(w) && WordStands(t, c, w)
    ensures Links(t, UnqualifiedName(t, c), c.pos + |M.MangleWord(w)|, c.arg + M.WordLists(w), class_, M.ShowWord(w),
                  Known(w))
    decreases w, 1
  {
    hide UnqualifiedName, SourceName, OperatorName, Type, Reads, Links, TagsTo, At;
    hide M.Sized, M.ShowId, M.TypeOk, M.MangleType, M.TypeLists, M.ShowType, M.MangleTags, M.Operator.Code, M.Operator.Shown;
    match w
    case Identifier(id, tags) => IdentifierIsLinked(t, c, id, tags, class_);
    case Internal(id, tags) => InternalIsLinked(t, c, id, tags, class_);
    case Oper(o) =>
      OperatorIsRead(t, c, o);
      WordIsOperator(t, c, c.pos + 2, c.arg, o.Shown());
      ReadLinks(t, UnqualifiedName(t, c), c.pos + 2, c.arg, class_, o.Shown());
    case VendorOper(arity, id) => VendorOperIsRead(t, c, arity, id, class_);
    case Conversion(y) =>
      ConversionIsRead(t, c, y);
      var s := "cv" + M.MangleType(y);
      IsReadTo(t, c, UnqualifiedName(t, c), s, M.TypeLists(y), "operator " + M.ShowType(y));
      ReadLinks(t, UnqualifiedName(t, c), c.pos + |s|, c.arg + M.TypeLists(y), class_, "operator " + M.ShowType(y));
  }

  lemma {:induction false} WordIsRead(t: CString, c: Core, w: M.Word)
    requires M.WordOk(w) && WordStands(t, c, w)
    ensures IsRead(t, c, UnqualifiedName(t, c), M.MangleWord(w), M.WordLists(w), M.ShowWord(w))
    decreases w, 2
  {
    hide UnqualifiedName, Reads, Links, WordStands, M.WordOk, M.MangleWord, M.WordLists, M.ShowWord;
    WordIsLinked(t, c, w, "");
    LinkReads(t, UnqualifiedName(t, c), c.pos + |M.MangleWord(w)|, c.arg + M.WordLists(w), M.ShowWord(w), Known(w));
  }

  lemma IdentifierIsLinked(t: CString, c: Core, id: string, tags: seq<string>, class_: string)
    requires M.WordOk(M.Identifier(id, tags)) && Good(t, c) && At(t, c.pos, M.Sized(id) + M.MangleTags(tags))
    requires t[c.pos + |M.Sized(id) + M.MangleTags(tags)|] != 'B'
    ensures Links(t, UnqualifiedName(t, c), c.pos + |M.Sized(id) + M.MangleTags(tags)|, c.arg, class_, M.ShowId(id),
                  M.ShowId(id))
  {
    hide UnqualifiedName, SourceName, Links, TagsTo, At, M.IsId, M.Sized, M.ShowId, M.MangleTags;
    Cut(t, c.pos, M.Sized(id), M.MangleTags(tags));
    SourceIsRead(t, c, id);
    TagsAreRead(t, c.Skip(|M.Sized(id)|), tags);
    SourceLinks(t, c, class_, M.ShowId(id), c.pos + |M.Sized(id) + M.MangleTags(tags)|);
  }

  lemma TagsBegin(t: CString, p: nat, tags: seq<string>)
    requires At(t, p, M.MangleTags(tags)) && t[p + |M.MangleTags(tags)|] != '_'
    ensures p < |t| && t[p] != '_'
  {
    hide M.Sized;
    if tags != [] { Char(t, p, M.MangleTags(tags), 0); }
  }

  lemma InternalIsLinked(t: CString, c: Core, id: string, tags: seq<string>, class_: string)
    requires M.WordOk(M.Internal(id, tags)) && Good(t, c) && At(t, c.pos, "L" + (M.Sized(id) + M.MangleTags(tags)))
    requires var ch := t[c.pos + |"L" + (M.Sized(id) + M.MangleTags(tags))|]; ch != 'B' && ch != '_'
    ensures Links(t, UnqualifiedName(t, c), c.pos + |"L" + (M.Sized(id) + M.MangleTags(tags))|, c.arg, class_,
                  M.ShowId(id), M.ShowId(id))
  {
    hide UnqualifiedName, SourceName, Links, TagsTo, At, M.IsId, M.Sized, M.ShowId, M.MangleTags, Frozen, Clean, Flat, Exec;
    ThreeParts(t, c.pos, "L", M.Sized(id), M.MangleTags(tags));
    Char(t, c.pos, "L", 0);
    SourceIsRead(t, c.Skip(1), id);
    var d := c.Skip(1 + |M.Sized(id)|);
    TagsBegin(t, d.pos, tags);
    TagsAreRead(t, d, tags);
    InternalLinks(t, c, class_, M.ShowId(id), d.pos + |M.MangleTags(tags)|);
  }

  lemma VendorOperIsRead(t: CString, c: Core, arity: nat, id: string, class_: string)
    requires arity <= 9 && M.IsId(id) && Good(t, c) && At(t, c.pos, "v" + (Written(arity) + M.Sized(id)))
    ensures Links(t, UnqualifiedName(t, c), c.pos + |"v" + (Written(arity) + M.Sized(id))|, c.arg, class_, M.ShowId(id),
                  "")
  {
    hide UnqualifiedName, OperatorName, SourceName, Links, Reads, At, M.IsId, M.Sized, M.ShowId;
    ThreeParts(t, c.pos, "v", Written(arity), M.Sized(id));
    Char(t, c.pos, "v", 0);
    Char(t, c.pos + 1, Written(arity), 0);
    SourceReads(t, c.Skip(2), id);
    var p := c.pos + 2 + |M.Sized(id)|;
    OperatorIsVendor(t, c, p, c.arg, M.ShowId(id));
    WordIsOperator(t, c, p, c.arg, M.ShowId(id));
    ReadLinks(t, UnqualifiedName(t, c), p, c.arg, class_, M.ShowId(id));
  }

  lemma {:induction false} ConversionIsRead(t: CString, c: Core, y: M.Type)
    requires M.TypeOk(y) && Stands(t, c, "cv" + M.MangleType(y), M.TypeLists(y))
    ensures IsRead(t, c, UnqualifiedName(t, c), "cv" + M.MangleType(y), M.TypeLists(y), "operator " + M.ShowType(y))
    decreases y, 2
  {
    hide UnqualifiedName, OperatorName, Type, Reads, M.TypeOk, M.MangleType, M.TypeLists, M.ShowType;
    var s := M.MangleType(y);
    Cut(t, c.pos, "cv", s);
    Char(t, c.pos, "cv", 0);
    Char(t, c.pos, "cv", 1);
    TypeIsRead(t, c.Skip(2), y);
    var p, q := c.pos + 2 + |s|, c.arg + M.TypeLists(y);
    OperatorIsConversion(t, c, p, q, M.ShowType(y));
    WordIsOperator(t, c, p, q, "operator " + M.ShowType(y));
  }

  lemma {:induction false} UnscopedIsRead(t: CString, c: Core, u: M.Unscoped)
    requires M.UnscopedOk(u) && Good(t, c) && At(t, c.pos, M.MangleUnscoped(u))
    requires c.arg + M.WordLists(u.w) <= MAX_LEVELS + 1
    requires var ch := t[c.pos + |M.MangleUnscoped(u)|]; ch != 'B' && ch != '_' && (u.w.Conversion? ==> ch != 'I')
    ensures IsRead(t, c, UnscopedName(t, c), M.MangleUnscoped(u), M.WordLists(u.w), M.ShowUnscoped(u))
    decreases u, 1
  {
    hide UnscopedName, UnqualifiedName, Reads, M.WordOk, M.MangleWord, M.WordLists, M.ShowWord;
    var s := M.MangleWord(u.w);
    if u.Global? {
      WordIsRead(t, c, u.w);
      UnscopedIsWord(t, c, c.pos + |s|, c.arg + M.WordLists(u.w), M.ShowWord(u.w));
    } else {
      Cut(t, c.pos, "St", s);
      Char(t, c.pos, "St", 0);
      Char(t, c.pos, "St", 1);
      WordIsRead(t, c.Skip(2), u.w);
      UnscopedIsStd(t, c, c.pos + 2 + |s|, c.arg + M.WordLists(u.w), M.ShowWord(u.w));
    }
  }

  // ---------------------------------------------------------------- names

  lemma {:induction false} NameIsRead(t: CString, c: Core, n: M.Name)
    requires M.NameOk(n) && Stands(t, c, M.MangleName(n), M.NameLists(n))
    ensures IsRead(t, c, Name(t, c), M.MangleName(n), M.NameLists(n), M.ShowName(n))
    decreases n, 1
  {
    hide Stands, IsRead, Name, M.UnscopedOk, M.TemplateOk, M.ArgsOk, M.PathOk;
    match n
    case Plain(u) => PlainIsRead(t, c, u);
    case Instance(_, _) => InstanceIsRead(t, c, n);
    case Nested(_, _, _, _) => NestedIsRead(t, c, n);
  }

  lemma {:induction false} PlainIsRead(t: CString, c: Core, u: M.Unscoped)
    requires M.UnscopedOk(u) && Stands(t, c, M.MangleUnscoped(u), M.WordLists(u.w))
    ensures IsRead(t, c, Name(t, c), M.MangleUnscoped(u), M.WordLists(u.w), M.ShowUnscoped(u))
    decreases u, 2
  {
    hide Name, UnscopedName, Behind, Reads, M.UnscopedOk, M.MangleUnscoped, M.WordLists, M.ShowUnscoped;
    UnscopedStarts(u);
    Char(t, c.pos, M.MangleUnscoped(u), 0);
    UnscopedIsRead(t, Behind(t, c), u);
    IsReadTo(t, Behind(t, c), UnscopedName(t, Behind(t, c)), M.MangleUnscoped(u), M.WordLists(u.w), M.ShowUnscoped(u));
    NoArgs(t, UnscopedName(t, Behind(t, c)).c);
    NameIsPlain(t, c, c.pos + |M.MangleUnscoped(u)|, c.arg + M.WordLists(u.w), M.ShowUnscoped(u));
  }

  /** The name of a template stands there, and arguments behind it. */
  predicate TemplateStands(t: CString, c: Core, h: M.Template) {
    && Good(t, c) && At(t, c.pos, M.MangleTemplate(h)) && t[c.pos + |M.MangleTemplate(h)|] == 'I'
    && c.arg + M.TemplateLists(h) <= MAX_LEVELS + 1
  }

  lemma {:induction false} TemplateIsRead(t: CString, c: Core, h: M.Template)
    requires M.TemplateOk(h) && TemplateStands(t, c, h)
    ensures IsRead(t, c, UnscopedTemplateName(t, c), M.MangleTemplate(h), M.TemplateLists(h), M.ShowTemplate(h))
    decreases h, 1
  {
    hide UnscopedTemplateName, UnscopedName, Substitution, Reads, M.UnscopedOk, M.MangleUnscoped, M.ShowUnscoped;
    hide M.Library.Code, M.Library.Text, M.IsSeqId, M.WordLists;
    match h
    case Known(u) =>
      UnscopedIsRead(t, c, u);
      TemplateIsUnscoped(t, c, c.pos + |M.MangleUnscoped(u)|, c.arg + M.WordLists(u.w), M.ShowUnscoped(u));
    case OfLibrary(l) =>
      LibraryReads(t, c, l);
      TemplateIsSubstitution(t, c, c.pos + 2, c.arg, l.Text());
    case OfEarlier(id) =>
      EarlierIsRead(t, c, id);
      TemplateIsSubstitution(t, c, c.pos + |id| + 2, c.arg, "?");
  }

  lemma WordIsShown(w: M.Word)
    requires M.WordOk(w)
    ensures M.ShowWord(w) != ""
  {
    hide M.ShowType, M.Operator.Text;
  }

  lemma TemplateIsShown(h: M.Template)
    requires M.TemplateOk(h)
    ensures M.ShowTemplate(h) != "" && M.MangleTemplate(h) != ""
    ensures var ch := M.MangleTemplate(h)[0]; ch != 'N' && ch != 'Z'
  {
    hide M.MangleUnscoped, M.ShowWord, M.WordOk;
    if h.Known? {
      UnscopedStarts(h.u);
      WordIsShown(h.u.w);
    }
  }

  lemma InstanceUnfolds(n: M.Name)
    requires M.NameOk(n) && n.Instance?
    ensures M.TemplateOk(n.template) && n.args != M.NoArgs && M.ArgsOk(n.args)
    ensures M.MangleName(n) == M.MangleTemplate(n.template) + M.MangleArgs(n.args)
    ensures M.NameLists(n) == M.TemplateLists(n.template) + M.ArgsLists(n.args)
    ensures M.ShowName(n) == M.ShowArgs(M.ShowTemplate(n.template), n.args)
  {
    hide M.TemplateOk, M.ArgsOk, M.MangleArgs, M.ArgsLists, M.MangleTemplate, M.TemplateLists, M.ShowTemplate;
  }

  lemma AnglesAreMarks(before: string)
    requires before != ""
    ensures Marks(before, "<>") == M.Angles(before)
  {
    assert " " + "<>" == " <>" && "" + "<>" == "<>";
  }

  lemma InstanceStands(t: CString, c: Core, n: M.Name)
    requires M.NameOk(n) && n.Instance? && Stands(t, c, M.MangleName(n), M.NameLists(n))
    ensures Good(t, c) && t[c.pos] != 'N' && t[c.pos] != 'Z' && TemplateStands(t, c, n.template)
    ensures At(t, c.pos + |M.MangleTemplate(n.template)|, M.MangleArgs(n.args))
    ensures c.arg + M.TemplateLists(n.template) + M.ArgsLists(n.args) <= MAX_LEVELS + 1
    ensures |M.MangleName(n)| == |M.MangleTemplate(n.template)| + |M.MangleArgs(n.args)|
  {
    hide M.TemplateOk, M.ArgsOk, M.MangleArgs, M.ArgsLists, M.MangleTemplate, M.TemplateLists, M.ShowTemplate;
    hide M.NameOk, M.MangleName, M.NameLists, M.ShowName;
    hide At;
    InstanceUnfolds(n);
    var a, b := M.MangleTemplate(n.template), M.MangleArgs(n.args);
    TemplateIsShown(n.template);
    ArgsOpen(n.args);
    Cut(t, c.pos, a, b);
    Char(t, c.pos, a, 0);
    Char(t, c.pos + |a|, b, 0);
  }

  lemma TemplateStandsAlike(t: CString, c: Core, d: Core, h: M.Template)
    requires TemplateStands(t, c, h) && Good(t, d) && d.pos == c.pos && d.arg == c.arg
    ensures TemplateStands(t, d, h)
  {
  }

  lemma {:induction false} InstanceIsRead(t: CString, c: Core, n: M.Name)
    requires M.NameOk(n) && n.Instance? && Stands(t, c, M.MangleName(n), M.NameLists(n))
    ensures IsRead(t, c, Name(t, c), M.MangleName(n), M.NameLists(n), M.ShowName(n))
    decreases n, 0
  {
    hide Name, UnscopedTemplateName, TemplateArgs, Behind, Reads, Stands, TemplateStands, At, Marks, M.Angles;
    hide Frozen, Clean, Flat, LocalName;
    hide M.TemplateOk, M.ArgsOk, M.MangleArgs, M.ArgsLists, M.MangleTemplate, M.TemplateLists, M.ShowTemplate;
    hide M.NameOk, M.MangleName, M.NameLists, M.ShowName;
    InstanceUnfolds(n);
    InstanceStands(t, c, n);
    var h, args := n.template, n.args;
    TemplateIsShown(h);
    var d := Behind(t, c);
    TemplateStandsAlike(t, c, d, h);
    TemplateIsRead(t, d, h);
    var u := UnscopedTemplateName(t, d);
    IsReadTo(t, d, u, M.MangleTemplate(h), M.TemplateLists(h), M.ShowTemplate(h));
    ArgsAreRead(t, u.c, args);
    var p, q := u.c.pos + |M.MangleArgs(args)|, u.c.arg + M.ArgsLists(args);
    NameIsInstance(t, c, u.c.pos, u.c.arg, M.ShowTemplate(h), p, q);
    AnglesAreMarks(M.ShowTemplate(h));
  }

  lemma ArgsOpen(args: M.Args)
    requires args != M.NoArgs
    ensures M.MangleArgs(args) != "" && M.MangleArgs(args)[0] == 'I'
  {
    hide M.MangleArg, M.MangleList;
  }

  // ---------------------------------------------------------------- nested names

  predicate ComponentStands(t: CString, c: Core, x: M.Component) {
    && Good(t, c) && At(t, c.pos, M.MangleComponent(x)) && c.arg + M.ComponentLists(x) <= MAX_LEVELS + 1
    && (var ch := t[c.pos + |M.MangleComponent(x)|];
        ch != 'B' && ch != '_' && (x.Part? && x.w.Conversion? ==> ch != 'I'))
  }

  /** It is read as a component behind "class_", and known as a class itself if it is one. */
  ghost predicate IsLinked(t: CString, c: Core, r: Res, x: M.Component, class_: string) {
    Links(t, r, c.pos + |M.MangleComponent(x)|, c.arg + M.ComponentLists(x), class_, M.ShowComponent(x, class_), M.ClassOf(x))
  }

  lemma {:induction false} ComponentIsRead(t: CString, c: Core, x: M.Component, args: M.Args, class_: string)
    requires M.ComponentOk(x, args) && ComponentStands(t, c, x)
    requires x.Constructor? || x.Destructor? ==> M.IsClassName(class_)
    ensures IsLinked(t, c, PrefixPart(t, c), x, class_)
    decreases x, 1
  {
    hide PrefixPart, Substitution, TemplateParam, Links, M.WordOk, M.MangleWord, M.WordLists, M.ShowWord;
    hide M.Library.Code, M.Library.Class, M.IsSeqId, M.OrdinalCode;
    match x
    case Part(w) => PartIsRead(t, c, w, class_);
    case Constructor(kind) => StructorIsRead(t, c, x, class_);
    case Destructor(kind) => StructorIsRead(t, c, x, class_);
    case Std =>
      StdIsRead(t, c);
      ReadLinks(t, Substitution(t, c), c.pos + 2, c.arg, class_, "std");
      PartIsSubstitution(t, c, c.pos + 2, c.arg, class_, "std", "");
    case LibraryPart(l) => LibraryPartIsRead(t, c, l, class_);
    case EarlierPart(id) =>
      EarlierIsRead(t, c, id);
      ReadLinks(t, Substitution(t, c), c.pos + |id| + 2, c.arg, class_, "?");
      PartIsSubstitution(t, c, c.pos + |id| + 2, c.arg, class_, "?", "");
    case ParameterPart(k) =>
      OrdinalIsRead(t, c, k);
      PartIsParameter(t, c, c.pos + 1 + |M.OrdinalCode(k)|, c.arg, class_, "?");
  }

  lemma LibraryPartIsRead(t: CString, c: Core, l: M.Library, class_: string)
    requires ComponentStands(t, c, M.LibraryPart(l))
    ensures IsLinked(t, c, PrefixPart(t, c), M.LibraryPart(l), class_)
  {
    hide PrefixPart, Substitution, StdTrace, Follows, M.Library.Code, M.Library.Class;
    LibraryIsRead(t, c, l);
    LibraryFollows(class_, l.Class());
    IsLink(t, Substitution(t, c), c.pos + 2, c.arg, class_, l.Text(), l.Class());
    hide Links;
    PartIsSubstitution(t, c, c.pos + 2, c.arg, class_, l.Text(), l.Class());
  }

  lemma StructorIsRead(t: CString, c: Core, x: M.Component, class_: string)
    requires ComponentStands(t, c, x) && M.IsClassName(class_)
    requires (x.Constructor? && 1 <= x.kind <= 3) || (x.Destructor? && x.kind <= 2)
    ensures IsLinked(t, c, PrefixPart(t, c), x, class_)
  {
    hide PrefixPart, UnqualifiedName, Follows, Links;
    Char(t, c.pos, M.MangleComponent(x), 0);
    Char(t, c.pos, M.MangleComponent(x), 1);
    var shown := M.ShowComponent(x, class_);
    if x.Constructor? { ConstructorFollows(class_); } else { DestructorFollows(class_); }
    StructorLinks(t, c, class_, shown);
    PartIsWord(t, c, c.pos + 2, c.arg, class_, shown, "");
  }

  lemma {:induction false} PartIsRead(t: CString, c: Core, w: M.Word, class_: string)
    requires M.WordOk(w) && ComponentStands(t, c, M.Part(w))
    ensures IsLinked(t, c, PrefixPart(t, c), M.Part(w), class_)
    decreases w, 2
  {
    hide PrefixPart, UnqualifiedName, Links, At, M.WordOk, M.MangleWord, M.WordLists, M.ShowWord;
    WordStarts(w);
    Char(t, c.pos, M.MangleWord(w), 0);
    WordIsLinked(t, c, w, class_);
    PartIsWord(t, c, c.pos + |M.MangleWord(w)|, c.arg + M.WordLists(w), class_, M.ShowWord(w), Known(w));
    ClassOfPart(w);
  }

  lemma ClassOfPart(w: M.Word)
    ensures M.ClassOf(M.Part(w)) == Known(w)
  {
    hide M.ShowId;
  }

  /** Behind the first component and its arguments. */
  function Tail(p: M.Path): string { if p.Then? then M.ManglePath(p.rest) + "E" else "E" }

  lemma PathUnfolds(p: M.Path)
    ensures M.ManglePath(p) + "E" == M.MangleComponent(p.c) + (M.MangleArgs(p.args) + Tail(p))
  {
    hide M.MangleComponent, M.MangleArgs;
    var a, b := M.MangleComponent(p.c), M.MangleArgs(p.args);
    if p.Then? {
      var d := M.ManglePath(p.rest);
      assert (a + (b + d)) + "E" == a + (b + (d + "E"));
    } else {
      assert (a + b) + "E" == a + (b + "E");
    }
  }

  lemma PathCounts(p: M.Path)
    ensures M.PathLists(p) ==
              M.ComponentLists(p.c) + M.ArgsLists(p.args) + if p.Then? then M.PathLists(p.rest) else 0
    ensures M.Parts(p) == 1 + if p.Then? then M.Parts(p.rest) else 0
  {
    hide M.ComponentLists, M.ArgsLists;
  }

  lemma PathIsGood(p: M.Path, class_: string)
    requires M.PathOk(p, class_)
    ensures M.ComponentOk(p.c, p.args) && M.ArgsOk(p.args)
    ensures p.c.Constructor? || p.c.Destructor? ==> M.IsClassName(class_)
    ensures p.Then? ==> M.PathOk(p.rest, M.ClassOf(p.c))
  {
    hide M.ComponentOk, M.ArgsOk, M.ClassOf;
  }

  lemma PathIsShown(p: M.Path, class_: string)
    ensures M.ShowPath(p, class_) ==
              M.ShowArgs(M.ShowComponent(p.c, class_), p.args) +
              if p.Then? then "::" + M.ShowPath(p.rest, M.ClassOf(p.c)) else ""
  {
    hide M.ShowComponent, M.ShowArgs, M.ClassOf;
    Together("", M.ShowArgs(M.ShowComponent(p.c, class_), p.args), "", "");
  }

  lemma TailStarts(p: M.Path, class_: string)
    requires M.PathOk(p, class_)
    ensures Tail(p) != "" && Apart(Tail(p)[0])
  {
    PathIsGood(p, class_);
    if p.Then? {
      PathIsGood(p.rest, M.ClassOf(p.c));
      PathUnfolds(p.rest);
      hide M.MangleComponent, M.MangleArgs, M.ManglePath, M.ComponentOk, M.ArgsOk, M.PathOk;
      ComponentStarts(p.rest.c, p.rest.args);
      OpeningsAreApart(Tail(p)[0]);
    }
  }

  predicate PathStands(t: CString, c: Core, p: M.Path) {
    Good(t, c) && At(t, c.pos, M.ManglePath(p) + "E") && c.arg + M.PathLists(p) <= MAX_LEVELS + 1
  }

  lemma NextIsApart(t: CString, p: nat, args: M.Args, tail: string)
    requires tail != "" && At(t, p, M.MangleArgs(args) + tail) && Apart(tail[0])
    ensures p < |t| && t[p] != 'B' && t[p] != '_' && (args == M.NoArgs ==> t[p] != 'I')
  {
    hide M.MangleArg, M.MangleList;
    Char(t, p, M.MangleArgs(args) + tail, 0);
  }

  lemma ThreeParts(t: CString, p: nat, a: string, b: string, d: string)
    requires At(t, p, a + (b + d))
    ensures At(t, p, a) && At(t, p + |a|, b + d) && At(t, p + |a|, b) && At(t, p + |a| + |b|, d)
    ensures p + |a| + |b| + |d| < |t| && |a + (b + d)| == |a| + |b| + |d|
  {
    Cut(t, p, a, b + d);
    Cut(t, p + |a|, b, d);
  }

  lemma PathIsAt(t: CString, c: Core, p: M.Path)
    requires PathStands(t, c, p)
    ensures Good(t, c) && At(t, c.pos, M.MangleComponent(p.c) + (M.MangleArgs(p.args) + Tail(p)))
    ensures |M.ManglePath(p)| + 1 == |M.MangleComponent(p.c) + (M.MangleArgs(p.args) + Tail(p))|
    ensures c.arg + M.ComponentLists(p.c) + M.ArgsLists(p.args) <= MAX_LEVELS + 1
  {
    hide At, M.ManglePath, M.MangleComponent, M.MangleArgs, M.PathLists, M.ComponentLists, M.ArgsLists, Tail;
    PathUnfolds(p);
    PathCounts(p);
  }

  /** The parts of a path, one behind the other. */
  lemma PathParts(t: CString, c: Core, p: M.Path, class_: string)
    requires M.PathOk(p, class_) && PathStands(t, c, p)
    ensures var n := c.pos + |M.MangleComponent(p.c)|;
            && At(t, c.pos, M.MangleComponent(p.c)) && At(t, n, M.MangleArgs(p.args)) && n + |M.MangleArgs(p.args)| < |t|
            && At(t, n + |M.MangleArgs(p.args)|, Tail(p))
            && t[n] != 'B' && t[n] != '_' && (p.args == M.NoArgs ==> t[n] != 'I')
    ensures |M.ManglePath(p)| + 1 == |M.MangleComponent(p.c)| + |M.MangleArgs(p.args)| + |Tail(p)|
  {
    hide At, PathStands, M.MangleComponent, M.MangleArgs, M.ManglePath, M.PathOk, Tail;
    TailStarts(p, class_);
    PathIsAt(t, c, p);
    ThreeParts(t, c.pos, M.MangleComponent(p.c), M.MangleArgs(p.args), Tail(p));
    NextIsApart(t, c.pos + |M.MangleComponent(p.c)|, p.args, Tail(p));
  }

  lemma FirstComponentStands(t: CString, c: Core, p: M.Path, class_: string)
    requires M.PathOk(p, class_) && PathStands(t, c, p)
    ensures ComponentStands(t, c, p.c) && c.arg + M.ComponentLists(p.c) + M.ArgsLists(p.args) <= MAX_LEVELS + 1
  {
    hide At, PathStands, M.MangleComponent, M.MangleArgs, M.ManglePath, M.PathOk, Tail, M.ComponentLists, M.ArgsLists;
    PathParts(t, c, p, class_);
    PathIsAt(t, c, p);
    PathIsGood(p, class_);
    ConversionIsLast(p.c, p.args);
  }

  lemma ConversionIsLast(x: M.Component, args: M.Args)
    requires M.ComponentOk(x, args)
    ensures x.Part? && x.w.Conversion? ==> args == M.NoArgs
  {
  }

  /** What comes behind the first component and its arguments. */
  lemma TailStands(t: CString, c: Core, p: M.Path, class_: string, e: Core)
    requires M.PathOk(p, class_) && PathStands(t, c, p) && Good(t, e)
    requires e.pos == c.pos + |M.MangleComponent(p.c)| + |M.MangleArgs(p.args)|
    requires e.arg == c.arg + M.ComponentLists(p.c) + M.ArgsLists(p.args)
    ensures if p.Then? then PathStands(t, e, p.rest) else t[e.pos] == 'E'
    ensures c.pos + |M.ManglePath(p)| == e.pos + if p.Then? then |M.ManglePath(p.rest)| else 0
  {
    hide PathStands, At, M.MangleComponent, M.MangleArgs, M.ManglePath, M.PathLists, M.PathOk, ComponentStands;
    hide M.ComponentLists, M.ArgsLists;
    PathParts(t, c, p, class_);
    if p.Then? { RestStands(t, c, p, e); } else { Char(t, e.pos, "E", 0); }
  }

  lemma RestStands(t: CString, c: Core, p: M.Path, e: Core)
    requires p.Then? && PathStands(t, c, p) && Good(t, e) && At(t, e.pos, Tail(p))
    requires e.arg == c.arg + M.ComponentLists(p.c) + M.ArgsLists(p.args)
    ensures PathStands(t, e, p.rest)
  {
    hide At, M.ManglePath, M.PathLists, M.ComponentLists, M.ArgsLists;
    PathCounts(p);
  }

  lemma ComponentIsShown(x: M.Component, args: M.Args, class_: string)
    requires M.ComponentOk(x, args) && (x.Constructor? || x.Destructor? ==> M.IsClassName(class_))
    ensures M.ShowComponent(x, class_) != ""
  {
    hide M.WordOk, M.ShowWord;
    if x.Part? { WordIsShown(x.w); }
  }

  lemma KnowsAlike(n: Out, m: Out, class_: string)
    requires Knows(n, class_) && m.prev == n.prev
    ensures Knows(m, class_)
  {
  }

  lemma NoArgsUnfold()
    ensures M.MangleArgs(M.NoArgs) == "" && M.ArgsLists(M.NoArgs) == 0
  {
  }

  /** The arguments of a component, if it has any. */
  lemma {:induction false} ArgsTurnOf(t: CString, c: Core, args: M.Args, text: string, shown: string, o: Out)
      returns (d: Core, more: bool, m: Out)
    requires M.ArgsOk(args) && Good(t, c) && At(t, c.pos, M.MangleArgs(args))
    requires c.arg + M.ArgsLists(args) <= MAX_LEVELS + 1
    requires o.append && o.sealed && shown != "" && o.text == text + shown
    ensures Good(t, d) && d.pos == c.pos + |M.MangleArgs(args)| && d.arg == c.arg + M.ArgsLists(args)
    ensures Prefix(t, c, true).c == Prefix(t, d, more).c
    ensures Exec(Prefix(t, c, true).tr, o) == Exec(Prefix(t, d, more).tr, m)
    ensures m.append && m.sealed && m.nest == o.nest && m.prev == o.prev && m.text == text + M.ShowArgs(shown, args)
    decreases args, 3
  {
    hide Prefix, TemplateArgs, Exec, At, M.ArgsOk, M.MangleArgs, M.ArgsLists, M.Angles, Marks;
    if args == M.NoArgs {
      NoArgsUnfold();
      d, more, m := c, true, o;
    } else {
      ArgsAreRead(t, c, args);
      AnglesAreMarks(shown);
      d, more := TemplateArgs(t, c).c, false;
      m := ArgsTurn(t, c, text, shown, d.pos, d.arg, o);
    }
  }

  /** One component and its arguments, read from "o": what is read next, and the state then. */
  lemma {:induction false} ComponentTurn(t: CString, c: Core, p: M.Path, class_: string, k: nat, some: bool, o: Out)
      returns (d: Core, more: bool, m: Out)
    requires M.PathOk(p, class_) && PathStands(t, c, p)
    requires k <= SHORT_MAX && o.append && o.nest == Level(k) && Knows(o, class_)
    ensures Good(t, d) && d.pos == c.pos + |M.MangleComponent(p.c)| + |M.MangleArgs(p.args)|
    ensures d.arg == c.arg + M.ComponentLists(p.c) + M.ArgsLists(p.args)
    ensures Prefix(t, c, some).c == Prefix(t, d, more).c
    ensures Exec(Prefix(t, c, some).tr, o) == Exec(Prefix(t, d, more).tr, m)
    ensures m.append && m.sealed && m.nest == Level(k + 1) && Knows(m, M.ClassOf(p.c))
    ensures m.text == o.text + (if k >= 1 then "::" else "") + M.ShowArgs(M.ShowComponent(p.c, class_), p.args)
    decreases p, 0
  {
    hide Prefix, PrefixPart, TemplateArgs, Exec, Knows, Level, Follows, PathStands, Tail, OneDeeper, At, ComponentStands;
    hide M.PathOk, M.ManglePath, M.PathLists, M.ShowPath, M.MangleComponent, M.MangleArgs, M.ComponentOk, M.ArgsOk;
    hide M.ShowComponent, M.ClassOf, M.ComponentLists, M.ArgsLists, M.ShowArgs;
    PathParts(t, c, p, class_);
    FirstComponentStands(t, c, p, class_);
    PathIsGood(p, class_);
    ComponentIsRead(t, c, p.c, p.args, class_);
    var a := PrefixPart(t, c);
    var shown, next := M.ShowComponent(p.c, class_), M.ClassOf(p.c);
    LinkIsOk(t, a, c.pos + |M.MangleComponent(p.c)|, c.arg + M.ComponentLists(p.c), class_, shown, next);
    PartTurn(t, c, some, k, class_, shown, next, o);
    var sep := if k >= 1 then "::" else "";
    var n := OneDeeper(a.tr, o);
    assert o.text + (sep + shown) == o.text + sep + shown;
    ComponentIsShown(p.c, p.args, class_);
    d, more, m := ArgsTurnOf(t, a.c, p.args, o.text + sep, shown, n);
    KnowsAlike(n, m, next);
  }

  lemma {:induction false} PathIsRead(t: CString, c: Core, p: M.Path, class_: string, k: nat, some: bool, o: Out)
    requires M.PathOk(p, class_) && PathStands(t, c, p) && k + M.Parts(p) <= M.MAX_PARTS
    requires o.append && o.nest == Level(k) && Knows(o, class_)
    ensures Reaches(t, Prefix(t, c, some), c.pos + |M.ManglePath(p)|, c.arg + M.PathLists(p))
    ensures var r := Exec(Prefix(t, c, some).tr, o);
            && r.text == o.text + (if k >= 1 then "::" else "") + M.ShowPath(p, class_) && r.append && r.sealed
    decreases p, 1
  {
    hide Prefix, Exec, Knows, Level, PathStands, At, Frozen, Clean, Flat;
    hide M.ManglePath, M.PathLists, M.ShowPath, M.MangleComponent, M.MangleArgs, M.ShowArgs, M.ClassOf, M.PathOk;
    hide M.ComponentOk, M.ArgsOk, M.ShowComponent, M.ComponentLists, M.ArgsLists, M.Parts;
    PathCounts(p);
    PathIsGood(p, class_);
    PathIsShown(p, class_);
    var d, more, m := ComponentTurn(t, c, p, class_, k, some, o);
    TailStands(t, c, p, class_, d);
    var before, shown := o.text + (if k >= 1 then "::" else ""), M.ShowArgs(M.ShowComponent(p.c, class_), p.args);
    if p.Then? {
      PathIsRead(t, d, p.rest, M.ClassOf(p.c), k + 1, more, m);
      Together(before, shown, "::", M.ShowPath(p.rest, M.ClassOf(p.c)));
    } else {
      EndTurn(t, d, more, m);
      Together(before, shown, "", "");
    }
  }

  lemma Together(a: string, b: string, c: string, d: string)
    ensures a + b + c + d == a + (b + (c + d)) && b + "" == b
  {
  }

  lemma NestedStands(t: CString, c: Core, n: M.Name)
    requires M.NameOk(n) && n.Nested? && Stands(t, c, M.MangleName(n), M.NameLists(n))
    ensures M.PathOk(n.path, "") && M.Parts(n.path) <= M.MAX_PARTS && Good(t, c) && t[c.pos] == 'N'
    ensures var d := CVQualifiers(t, c.Skip(1)).c;
            && PathStands(t, d, n.path) && d.arg == c.arg
            && d.pos + |M.ManglePath(n.path)| + 1 == c.pos + |M.MangleName(n)|
    ensures M.NameLists(n) == M.PathLists(n.path) && M.ShowName(n) == M.ShowPath(n.path, "")
  {
    hide At, M.ManglePath, M.PathLists, M.PathOk, M.ShowPath;
    var quals, s := M.Qualifiers(n.restricted, n.volatile, n.constant), M.ManglePath(n.path) + "E";
    Cut(t, c.pos, "N", quals + s);
    Char(t, c.pos, "N", 0);
    Cut(t, c.pos + 1, quals, s);
    PathStarts(n.path);
    QualifiersAreRead(t, c.Skip(1), n, s);
  }

  lemma PathStarts(p: M.Path)
    requires M.PathOk(p, "") && !(p.c.Part? && p.c.w.Oper?)
    ensures var s := M.ManglePath(p) + "E"; s[0] != 'r' && s[0] != 'V' && s[0] != 'K'
  {
    hide M.PathOk, M.ManglePath, M.MangleArgs, M.ComponentOk, M.ArgsOk, M.WordOk, Tail;
    PathUnfolds(p);
    PathIsGood(p, "");
    if p.c.Part? {
      ConversionStarts(p.c, p.args);
    }
  }

  lemma ConversionStarts(x: M.Component, args: M.Args)
    requires x.Part? && !x.w.Oper? && M.ComponentOk(x, args)
    ensures var s := M.MangleComponent(x); s != "" && s[0] != 'r' && s[0] != 'V' && s[0] != 'K'
  {
    hide M.MangleType, M.TypeOk;
    WordStarts(x.w);
  }

  /** One qualifier, or none. */
  lemma QualifierIsRead(t: CString, p: nat, on: bool, ch: char, s: string)
    requires s != "" && s[0] != ch && At(t, p, (if on then [ch] else "") + s)
    ensures p + 1 < |t| && (t[p] == ch <==> on) && At(t, if on then p + 1 else p, s)
  {
    if on {
      Cut(t, p, [ch], s);
      Char(t, p, [ch], 0);
    } else {
      assert "" + s == s;
      Char(t, p, s, 0);
    }
  }

  lemma FourParts(a: string, b: string, c: string, d: string)
    ensures (a + b + c) + d == a + (b + (c + d)) && |a + b + c| == |a| + |b| + |c|
  {
  }

  lemma QualifiersAreRead(t: CString, c: Core, n: M.Name, s: string)
    requires n.Nested? && Good(t, c) && s != "" && s[0] != 'r' && s[0] != 'V' && s[0] != 'K'
    requires At(t, c.pos, M.Qualifiers(n.restricted, n.volatile, n.constant) + s)
    ensures CVQualifiers(t, c).c == c.Skip(|M.Qualifiers(n.restricted, n.volatile, n.constant)|)
  {
    hide At;
    var r, v, k := if n.restricted then "r" else "", if n.volatile then "V" else "", if n.constant then "K" else "";
    FourParts(r, v, k, s);
    QualifierIsRead(t, c.pos, n.restricted, 'r', v + (k + s));
    QualifierIsRead(t, c.pos + |r|, n.volatile, 'V', k + s);
    QualifierIsRead(t, c.pos + |r| + |v|, n.constant, 'K', s);
  }

  /** From the beginning of a nested name. */
  lemma {:induction false} WholePathIsRead(t: CString, c: Core, p: M.Path, o: Out)
    requires M.PathOk(p, "") && PathStands(t, c, p) && M.Parts(p) <= M.MAX_PARTS && o.append && o.nest == 0
    ensures Reaches(t, Prefix(t, c, false), c.pos + |M.ManglePath(p)|, c.arg + M.PathLists(p))
    ensures var r := Exec(Prefix(t, c, false).tr, o); r.text == o.text + M.ShowPath(p, "") && r.append && r.sealed
    decreases p, 2
  {
    hide Prefix, Exec, PathStands, M.PathOk, M.ManglePath, M.PathLists, M.ShowPath, M.Parts;
    PathIsRead(t, c, p, "", 0, false, o);
    Together(o.text, "", "", "");
  }

  lemma {:induction false} WholePathAdds(t: CString, c: Core, p: M.Path)
    requires Good(t, c) && M.PathOk(p, "") && PathStands(t, c, p) && M.Parts(p) <= M.MAX_PARTS
    ensures Reaches(t, Prefix(t, c, false), c.pos + |M.ManglePath(p)|, c.arg + M.PathLists(p))
    ensures forall o: Out {:trigger Exec(Prefix(t, c, false).tr, o)} :: o.append && o.nest == 0 ==>
              var r := Exec(Prefix(t, c, false).tr, o); r.text == o.text + M.ShowPath(p, "") && r.append && r.sealed
    decreases p, 3
  {
    hide Prefix, Exec, PathStands, M.PathOk, M.ManglePath, M.PathLists, M.ShowPath, M.Parts, Frozen, Clean, Flat;
    forall o: Out {:trigger Exec(Prefix(t, c, false).tr, o)} | o.append && o.nest == 0
      ensures var r := Exec(Prefix(t, c, false).tr, o); r.text == o.text + M.ShowPath(p, "") && r.append && r.sealed
    {
      WholePathIsRead(t, c, p, o);
    }
    WholePathIsRead(t, c, p, Start("", _ => 'x').(nest := 0));
  }

  lemma {:induction false} NestedIsRead(t: CString, c: Core, n: M.Name)
    requires M.NameOk(n) && n.Nested? && Stands(t, c, M.MangleName(n), M.NameLists(n))
    ensures IsRead(t, c, Name(t, c), M.MangleName(n), M.NameLists(n), M.ShowName(n))
    decreases n, 0
  {
    hide Name, LocalName, CVQualifiers, Prefix, Reads, Exec, Stands, PathStands, Frozen, Clean, Flat;
    hide M.NameOk, M.PathOk, M.ManglePath, M.PathLists, M.ShowPath, M.MangleName, M.NameLists, M.ShowName, M.Parts;
    NestedStands(t, c, n);
    var d := CVQualifiers(t, c.Skip(1)).c;
    WholePathAdds(t, d, n.path);
    PathEnds(t, d, n.path);
    NestedReads(t, c, d.pos + |M.ManglePath(n.path)|, d.arg + M.PathLists(n.path), M.ShowPath(n.path, ""));
  }

  lemma PathEnds(t: CString, c: Core, p: M.Path)
    requires PathStands(t, c, p)
    ensures c.pos + |M.ManglePath(p)| < |t| && t[c.pos + |M.ManglePath(p)|] == 'E'
  {
    hide M.ManglePath, M.PathLists;
    Cut(t, c.pos, M.ManglePath(p), "E");
    Char(t, c.pos + |M.ManglePath(p)|, "E", 0);
  }

  // ---------------------------------------------------------------- encodings

  lemma OffsetIsRead(t: CString, c: Core, o: M.Offset)
    requires Good(t, c) && M.OffsetOk(o) && At(t, c.pos, M.MangleOffset(o))
    ensures CallOffset(t, c) == Pass(c.Skip(|M.MangleOffset(o)|)) && Good(t, c.Skip(|M.MangleOffset(o)|))
    ensures t[c.pos] == if o.Fixed? then 'h' else 'v'
  {
    hide At, CallOffset, INT_MAX;
    match o
    case Fixed(n) => FixedIsRead(t, c, n);
    case Virtual(n, m) => VirtualIsRead(t, c, n, m);
  }

  lemma FixedIsRead(t: CString, c: Core, n: int)
    requires Good(t, c) && -INT_MAX <= n <= INT_MAX && At(t, c.pos, "h" + (M.Number(n) + "_"))
    ensures CallOffset(t, c) == Pass(c.Skip(2 + |M.Number(n)|)) && c.pos + 2 + |M.Number(n)| < |t| && t[c.pos] == 'h'
  {
    hide At, Number, M.Number, INT_MAX;
    Cut(t, c.pos, "h", M.Number(n) + "_");
    Char(t, c.pos, "h", 0);
    MarkedNumberIsRead(t, c.Skip(1), n);
  }

  lemma VirtualIsRead(t: CString, c: Core, n: int, m: int)
    requires Good(t, c) && -INT_MAX <= n <= INT_MAX && -INT_MAX <= m <= INT_MAX
    requires At(t, c.pos, "v" + (M.Number(n) + ("_" + (M.Number(m) + "_"))))
    ensures CallOffset(t, c) == Pass(c.Skip(3 + |M.Number(n)| + |M.Number(m)|))
    ensures c.pos + 3 + |M.Number(n)| + |M.Number(m)| < |t| && t[c.pos] == 'v'
  {
    hide At, Number, M.Number, INT_MAX;
    Regrouped(M.Number(n), "_", M.Number(m) + "_");
    ThreeParts(t, c.pos, "v", M.Number(n) + "_", M.Number(m) + "_");
    Char(t, c.pos, "v", 0);
    MarkedNumberIsRead(t, c.Skip(1), n);
    MarkedNumberIsRead(t, c.Skip(2 + |M.Number(n)|), m);
  }

  lemma Regrouped(a: string, b: string, c: string)
    ensures a + (b + c) == (a + b) + c
  {
  }

  lemma MarkedNumberIsRead(t: CString, c: Core, n: int)
    requires Good(t, c) && -INT_MAX <= n <= INT_MAX && At(t, c.pos, M.Number(n) + "_")
    ensures Number(t, c) == NumRes(true, c.Skip(|M.Number(n)|), n) && t[c.pos + |M.Number(n)|] == '_'
    ensures c.pos + |M.Number(n)| + 1 < |t|
  {
    hide At, Number, M.Number, INT_MAX;
    Cut(t, c.pos, M.Number(n), "_");
    Char(t, c.pos + |M.Number(n)|, "_", 0);
    NumberIsRead(t, c, n);
  }

  lemma EndIsApart(t: CString, c: Core)
    requires Good(t, c) && Ends(t, c)
    ensures Apart(t[c.pos])
  {
  }

  /** An encoding stands there, and the text or a group ends behind it. */
  predicate EncodingStands(t: CString, c: Core, s: string, n: nat) {
    Good(t, c) && At(t, c.pos, s) && Ends(t, c.Skip(|s|)) && c.arg + n <= MAX_LEVELS + 1
  }

  lemma EncodingIsApart(t: CString, c: Core, s: string, n: nat)
    requires EncodingStands(t, c, s, n)
    ensures Stands(t, c, s, n) && Good(t, c.Skip(|s|)) && Apart(t[c.pos + |s|])
  {
    EndIsApart(t, c.Skip(|s|));
  }

  /** What stands behind the first characters of an encoding. */
  lemma Beheaded(t: CString, c: Core, head: string, s: string, n: nat)
    requires EncodingStands(t, c, head + s, n)
    ensures Good(t, c.Skip(|head|)) && EncodingStands(t, c.Skip(|head|), s, n) && At(t, c.pos, head)
  {
    Cut(t, c.pos, head, s);
  }

  lemma {:induction false} EncodingIsRead(t: CString, c: Core, e: M.Encoding)
    requires M.EncodingOk(e) && EncodingStands(t, c, M.Mangle(e), M.Lists(e))
    ensures IsRead(t, c, Encoding(t, c), M.Mangle(e), M.Lists(e), M.Show(e))
    decreases e, 2
  {
    hide Encoding, SpecialName, Name, Behind, IsRead, EncodingStands, At;
    hide M.NameOk, M.TypesOk, M.MangleName, M.MangleTypes, M.NameLists, M.TypesLists, M.ShowName;
    match e
    case FunctionOf(_, _) => FunctionNameIsRead(t, c, e);
    case DataOf(name) => DataNameIsRead(t, c, name);
    case _ =>
      hide M.EncodingOk, M.Mangle, M.Lists, M.Show;
      EncodingAlike(t, c, e);
      SpecialIsRead(t, Behind(t, c), e);
      SpecialIsEncoding(t, c, e);
  }

  lemma EncodingAlike(t: CString, c: Core, e: M.Encoding)
    requires !e.FunctionOf? && !e.DataOf? && EncodingStands(t, c, M.Mangle(e), M.Lists(e))
    ensures Good(t, c) && (t[c.pos] == 'T' || t[c.pos] == 'G')
    ensures EncodingStands(t, Behind(t, c), M.Mangle(e), M.Lists(e))
  {
    hide Behind, M.Mangle, M.Lists;
    SpecialStarts(e);
    Char(t, c.pos, M.Mangle(e), 0);
  }

  lemma SpecialIsEncoding(t: CString, c: Core, e: M.Encoding)
    requires Good(t, c) && (t[c.pos] == 'T' || t[c.pos] == 'G')
    requires IsRead(t, Behind(t, c), SpecialName(t, Behind(t, c)), M.Mangle(e), M.Lists(e), M.Show(e))
    ensures IsRead(t, c, Encoding(t, c), M.Mangle(e), M.Lists(e), M.Show(e))
  {
    hide Encoding, Name, LocalName, SpecialName, Behind, Reads, M.Mangle, M.Lists, M.Show, TriedInVain;
    hide Frozen, Clean, Flat, Exec;
    EncodingIsSpecial(t, c);
    var d := Behind(t, c);
    VainReads(t, Encoding(t, c), c, Name(t, c), SpecialName(t, d), c.pos + |M.Mangle(e)|, c.arg + M.Lists(e), M.Show(e));
  }

  lemma {:induction false} DataNameIsRead(t: CString, c: Core, name: M.Name)
    requires M.NameOk(name) && EncodingStands(t, c, M.MangleName(name), M.NameLists(name))
    ensures IsRead(t, c, Encoding(t, c), M.MangleName(name), M.NameLists(name), M.ShowName(name))
    decreases name, 3
  {
    hide Encoding, Name, Reads, Ends, At, M.NameOk, M.MangleName, M.NameLists, M.ShowName;
    var s := M.MangleName(name);
    EncodingIsApart(t, c, s, M.NameLists(name));
    NameIsRead(t, c, name);
    IsReadTo(t, c, Name(t, c), s, M.NameLists(name), M.ShowName(name));
    EndsAlike(t, c.Skip(|s|), Name(t, c).c);
    EncodingIsName(t, c, c.pos + |s|, c.arg + M.NameLists(name), M.ShowName(name));
  }

  lemma SpecialStarts(e: M.Encoding)
    requires !e.FunctionOf? && !e.DataOf?
    ensures M.Mangle(e) != "" && (M.Mangle(e)[0] == 'T' || M.Mangle(e)[0] == 'G')
  {
    hide M.MangleType, M.MangleName, M.MangleOffset;
  }

  lemma FunctionUnfolds(e: M.Encoding)
    requires e.FunctionOf?
    ensures M.EncodingOk(e) <==> M.NameOk(e.name) && M.TypesOk(e.params)
    ensures M.Mangle(e) == M.MangleName(e.name) + M.MangleTypes(e.params)
    ensures M.Lists(e) == M.NameLists(e.name) + M.TypesLists(e.params) && M.Show(e) == M.ShowName(e.name) + "()"
  {
    hide M.NameOk, M.TypesOk, M.MangleName, M.MangleTypes, M.NameLists, M.TypesLists, M.ShowName;
  }

  lemma FunctionNameStands(t: CString, c: Core, name: M.Name, params: M.Types)
    requires M.TypesOk(params)
    requires EncodingStands(t, c, M.MangleName(name) + M.MangleTypes(params), M.NameLists(name) + M.TypesLists(params))
    ensures Stands(t, c, M.MangleName(name), M.NameLists(name))
    ensures var d := c.(pos := c.pos + |M.MangleName(name)|, arg := c.arg + M.NameLists(name));
            && Stands(t, d, M.MangleTypes(params), M.TypesLists(params)) && Good(t, d.Skip(|M.MangleTypes(params)|))
            && Ends(t, d.Skip(|M.MangleTypes(params)|))
  {
    hide At, M.TypesOk, M.MangleName, M.MangleTypes, M.NameLists, M.TypesLists;
    var a, b := M.MangleName(name), M.MangleTypes(params);
    EncodingIsApart(t, c, a + b, M.NameLists(name) + M.TypesLists(params));
    Cut(t, c.pos, a, b);
    TypesStart(params);
    Char(t, c.pos + |a|, b, 0);
    OpeningsAreApart(b[0]);
  }

  /** A signature behind a name that is read. */
  lemma {:induction false} SignatureIsRead(t: CString, c: Core, d: Core, params: M.Types)
    requires M.TypesOk(params) && Stands(t, d, M.MangleTypes(params), M.TypesLists(params))
    requires Good(t, d.Skip(|M.MangleTypes(params)|)) && Ends(t, d.Skip(|M.MangleTypes(params)|))
    requires Good(t, c) && c.pos == d.pos && c.arg == d.arg
    ensures Reads(t, BareFunctionType(t, c), c.pos + |M.MangleTypes(params)|, c.arg + M.TypesLists(params), "()")
    decreases params, 2
  {
    hide BareFunctionType, TypePlus, TypeStar, Stands, Ends, Reads, M.TypesOk, M.MangleTypes, M.TypesLists;
    var n := |M.MangleTypes(params)|;
    StandsAlike(t, d, c, M.MangleTypes(params), M.TypesLists(params));
    EndsAlike(t, d.Skip(n), c.Skip(n));
    TypesAreRead(t, c, params);
    SignatureReads(t, c, c.pos + n, c.arg + M.TypesLists(params));
  }

  lemma {:induction false} FunctionNameIsRead(t: CString, c: Core, e: M.Encoding)
    requires M.EncodingOk(e) && e.FunctionOf? && EncodingStands(t, c, M.Mangle(e), M.Lists(e))
    ensures IsRead(t, c, Encoding(t, c), M.Mangle(e), M.Lists(e), M.Show(e))
    decreases e, 0
  {
    hide Encoding, Name, BareFunctionType, Reads, Stands, EncodingStands, Ends;
    hide M.EncodingOk, M.Mangle, M.Lists, M.Show;
    hide M.NameOk, M.TypesOk, M.MangleName, M.MangleTypes, M.NameLists, M.TypesLists, M.ShowName;
    FunctionUnfolds(e);
    var a, b := M.MangleName(e.name), M.MangleTypes(e.params);
    FunctionNameStands(t, c, e.name, e.params);
    NameIsRead(t, c, e.name);
    var n := Name(t, c);
    IsReadTo(t, c, n, a, M.NameLists(e.name), M.ShowName(e.name));
    var d := c.(pos := c.pos + |a|, arg := c.arg + M.NameLists(e.name));
    SignatureIsRead(t, n.c, d, e.params);
    EncodingIsFunction(t, c, n.c.pos, n.c.arg, M.ShowName(e.name), n.c.pos + |b|, n.c.arg + M.TypesLists(e.params));
  }

  lemma EndsAlike(t: CString, c: Core, d: Core)
    requires Good(t, c) && Good(t, d) && c.pos == d.pos
    ensures Ends(t, c) <==> Ends(t, d)
  {
  }

  lemma {:induction false} SpecialIsRead(t: CString, c: Core, e: M.Encoding)
    requires M.EncodingOk(e) && !e.FunctionOf? && !e.DataOf? && EncodingStands(t, c, M.Mangle(e), M.Lists(e))
    ensures IsRead(t, c, SpecialName(t, c), M.Mangle(e), M.Lists(e), M.Show(e))
    decreases e, 1
  {
    hide SpecialName, Encoding, Name, Type, IsRead, EncodingStands, CallOffset;
    hide M.NameOk, M.TypeOk, M.MangleName, M.MangleType, M.NameLists, M.TypeLists, M.ShowName, M.ShowType;
    hide M.OffsetOk, M.MangleOffset;
    match e
    case TableOf(kind, y) => TableIsRead(t, c, kind, y);
    case GuardOf(name) => GuardIsRead(t, c, "GV", name);
    case TemporaryOf(name) => GuardIsRead(t, c, "GR", name);
    case Thunk(o, x) => ThunkIsRead(t, c, o, x);
    case CovariantThunk(o, p, x) => CovariantIsRead(t, c, o, p, x);
    case ConstructionTable(_, _, _) => ConstructionIsRead(t, c, e);
    case HiddenAlias(x) => HiddenIsRead(t, c, x);
  }

  lemma {:induction false} TableIsRead(t: CString, c: Core, kind: M.Table, y: M.Type)
    requires M.TypeOk(y) && EncodingStands(t, c, ['T', kind.Code()] + M.MangleType(y), M.TypeLists(y))
    ensures IsRead(t, c, SpecialName(t, c), ['T', kind.Code()] + M.MangleType(y), M.TypeLists(y), M.ShowType(y))
    decreases y, 2
  {
    hide SpecialName, Type, Reads, EncodingStands, M.TypeOk, M.MangleType, M.TypeLists, M.ShowType;
    var head, s, d := ['T', kind.Code()], M.MangleType(y), c.Skip(2);
    Beheaded(t, c, head, s, M.TypeLists(y));
    Char(t, c.pos, head, 0);
    Char(t, c.pos, head, 1);
    EncodingIsApart(t, d, s, M.TypeLists(y));
    TypeIsRead(t, d, y);
    var p, q := d.pos + |s|, d.arg + M.TypeLists(y);
    IsReadTo(t, d, Type(t, d), s, M.TypeLists(y), M.ShowType(y));
    if kind.InfoFunction? || kind.JavaClass? {
      assert SpecialType(t, c, "FJ") == Type(t, d);
      SpecialIsLater(t, c, p, q, M.ShowType(y));
    } else {
      SpecialIsTable(t, c, p, q, M.ShowType(y));
    }
  }

  lemma {:induction false} GuardIsRead(t: CString, c: Core, head: string, name: M.Name)
    requires (head == "GV" || head == "GR") && M.NameOk(name)
    requires EncodingStands(t, c, head + M.MangleName(name), M.NameLists(name))
    ensures IsRead(t, c, SpecialName(t, c), head + M.MangleName(name), M.NameLists(name), M.ShowName(name))
    decreases name, 2
  {
    hide SpecialName, Name, Reads, EncodingStands, M.NameOk, M.MangleName, M.NameLists, M.ShowName;
    var s, d := M.MangleName(name), c.Skip(2);
    Beheaded(t, c, head, s, M.NameLists(name));
    Char(t, c.pos, head, 0);
    Char(t, c.pos, head, 1);
    EncodingIsApart(t, d, s, M.NameLists(name));
    NameIsRead(t, d, name);
    IsReadTo(t, d, Name(t, d), s, M.NameLists(name), M.ShowName(name));
    var p, q := d.pos + |s|, d.arg + M.NameLists(name);
    if head == "GV" {
      SpecialIsGuard(t, c, p, q, M.ShowName(name));
    } else {
      assert GuardName(t, c, 'R') == Name(t, d);
      SpecialIsLater(t, c, p, q, M.ShowName(name));
    }
  }

  lemma {:induction false} ThunkIsRead(t: CString, c: Core, o: M.Offset, x: M.Encoding)
    requires M.OffsetOk(o) && M.EncodingOk(x)
    requires EncodingStands(t, c, "T" + (M.MangleOffset(o) + M.Mangle(x)), M.Lists(x))
    ensures IsRead(t, c, SpecialName(t, c), "T" + (M.MangleOffset(o) + M.Mangle(x)), M.Lists(x), M.Show(x))
    decreases x, 3
  {
    hide SpecialName, Encoding, CallOffset, Reads, EncodingStands, M.OffsetOk, M.MangleOffset;
    hide M.EncodingOk, M.Mangle, M.Lists, M.Show;
    var a, s := M.MangleOffset(o), M.Mangle(x);
    Beheaded(t, c, "T", a + s, M.Lists(x));
    Char(t, c.pos, "T", 0);
    Beheaded(t, c.Skip(1), a, s, M.Lists(x));
    OffsetIsRead(t, c.Skip(1), o);
    var d := c.Skip(1).Skip(|a|);
    EncodingIsRead(t, d, x);
    SpecialIsThunk(t, c, d, d.pos + |s|, d.arg + M.Lists(x), M.Show(x));
  }

  lemma {:induction false} CovariantIsRead(t: CString, c: Core, o: M.Offset, p: M.Offset, x: M.Encoding)
    requires M.OffsetOk(o) && M.OffsetOk(p) && M.EncodingOk(x)
    requires EncodingStands(t, c, "Tc" + (M.MangleOffset(o) + (M.MangleOffset(p) + M.Mangle(x))), M.Lists(x))
    ensures IsRead(t, c, SpecialName(t, c), "Tc" + (M.MangleOffset(o) + (M.MangleOffset(p) + M.Mangle(x))), M.Lists(x),
                   M.Show(x))
    decreases x, 3
  {
    hide SpecialName, Encoding, CallOffset, Reads, EncodingStands, M.OffsetOk, M.MangleOffset;
    hide M.EncodingOk, M.Mangle, M.Lists, M.Show;
    var a, b, s := M.MangleOffset(o), M.MangleOffset(p), M.Mangle(x);
    Beheaded(t, c, "Tc", a + (b + s), M.Lists(x));
    Char(t, c.pos, "Tc", 0);
    Char(t, c.pos, "Tc", 1);
    Beheaded(t, c.Skip(2), a, b + s, M.Lists(x));
    OffsetIsRead(t, c.Skip(2), o);
    var d := c.Skip(2).Skip(|a|);
    Beheaded(t, d, b, s, M.Lists(x));
    OffsetIsRead(t, d, p);
    var e := d.Skip(|b|);
    EncodingIsRead(t, e, x);
    SpecialIsCovariant(t, c, d, e, e.pos + |s|, e.arg + M.Lists(x), M.Show(x));
  }

  lemma {:induction false} HiddenIsRead(t: CString, c: Core, x: M.Encoding)
    requires M.EncodingOk(x) && EncodingStands(t, c, "GA" + M.Mangle(x), M.Lists(x))
    ensures IsRead(t, c, SpecialName(t, c), "GA" + M.Mangle(x), M.Lists(x), M.Show(x))
    decreases x, 3
  {
    hide SpecialName, Encoding, Reads, EncodingStands, M.EncodingOk, M.Mangle, M.Lists, M.Show;
    Beheaded(t, c, "GA", M.Mangle(x), M.Lists(x));
    Char(t, c.pos, "GA", 0);
    Char(t, c.pos, "GA", 1);
    var d := c.Skip(2);
    EncodingIsRead(t, d, x);
    IsReadTo(t, d, Encoding(t, d), M.Mangle(x), M.Lists(x), M.Show(x));
    assert GuardEncoding(t, c) == Encoding(t, d);
    SpecialIsLater(t, c, d.pos + |M.Mangle(x)|, d.arg + M.Lists(x), M.Show(x));
  }

  /** Two texts with a number between them. */
  lemma NumberBetween(t: CString, p: nat, a: string, n: nat, b: string)
    requires At(t, p, a + (Written(n) + ("_" + b)))
    ensures At(t, p, a) && p + |a| < |t| && Apart(t[p + |a|]) && At(t, p + |a|, M.Number(n) + "_")
    ensures At(t, p + |a| + |Written(n)| + 1, b) && M.Number(n) == Written(n)
    ensures |a + (Written(n) + ("_" + b))| == |a| + |Written(n)| + 1 + |b|
  {
    hide Written, At;
    var w := Written(n);
    Regrouped(w, "_", b);
    ThreeParts(t, p, a, w + "_", b);
    NumberStarts(n);
    Char(t, p + |a|, w + "_", 0);
  }

  lemma ConstructionStands(t: CString, c: Core, y: M.Type, n: nat, of: M.Type)
    requires n <= INT_MAX
    requires EncodingStands(t, c, "TC" + (M.MangleType(y) + (Written(n) + ("_" + M.MangleType(of)))),
                            M.TypeLists(y) + M.TypeLists(of))
    ensures Good(t, c) && Is2(t, c, 'T', 'C') && Good(t, c.Skip(2))
    ensures Stands(t, c.Skip(2), M.MangleType(y), M.TypeLists(y))
    ensures forall e: Core :: Good(t, e) && e.pos == c.pos + 2 + |M.MangleType(y)| && e.arg == c.arg + M.TypeLists(y) ==>
              var v := Number(t, e);
              && v.ok && v.c == e.Skip(|Written(n)|) && t[v.c.pos] == '_'
              && Stands(t, v.c.Skip(1), M.MangleType(of), M.TypeLists(of))
  {
    hide Number, Written, M.Number, M.MangleType, M.TypeLists, At, Ends, Apart;
    var a, b := M.MangleType(y), M.MangleType(of);
    Beheaded(t, c, "TC", a + (Written(n) + ("_" + b)), M.TypeLists(y) + M.TypeLists(of));
    Char(t, c.pos, "TC", 0);
    Char(t, c.pos, "TC", 1);
    NumberBetween(t, c.pos + 2, a, n, b);
    EncodingIsApart(t, c.Skip(2), a + (Written(n) + ("_" + b)), M.TypeLists(y) + M.TypeLists(of));
    forall e: Core | Good(t, e) && e.pos == c.pos + 2 + |a| && e.arg == c.arg + M.TypeLists(y)
      ensures var v := Number(t, e);
              && v.ok && v.c == e.Skip(|Written(n)|) && t[v.c.pos] == '_' && Stands(t, v.c.Skip(1), b, M.TypeLists(of))
    {
      MarkedNumberIsRead(t, e, n);
    }
  }

  lemma ConstructionUnfolds(e: M.Encoding)
    requires e.ConstructionTable?
    ensures M.EncodingOk(e) <==> M.TypeOk(e.t) && e.n <= INT_MAX && M.TypeOk(e.of)
    ensures M.Mangle(e) == "TC" + (M.MangleType(e.t) + (Written(e.n) + ("_" + M.MangleType(e.of))))
    ensures M.Lists(e) == M.TypeLists(e.t) + M.TypeLists(e.of) && M.Show(e) == M.ShowType(e.t)
  {
    hide Written, M.TypeOk, M.MangleType, M.TypeLists, M.ShowType;
  }

  lemma {:induction false} ConstructionIsRead(t: CString, c: Core, e: M.Encoding)
    requires M.EncodingOk(e) && e.ConstructionTable? && EncodingStands(t, c, M.Mangle(e), M.Lists(e))
    ensures IsRead(t, c, SpecialName(t, c), M.Mangle(e), M.Lists(e), M.Show(e))
    decreases e, 0
  {
    hide SpecialName, ConstructionVtable, Type, Number, Reads, Stands, EncodingStands, Written, Frozen, Clean, Flat;
    hide M.EncodingOk, M.Mangle, M.Lists, M.Show, M.TypeOk, M.MangleType, M.TypeLists, M.ShowType;
    ConstructionUnfolds(e);
    ConstructionStands(t, c, e.t, e.n, e.of);
    var d := c.Skip(2);
    TypeIsRead(t, d, e.t);
    var x := Type(t, d);
    IsReadTo(t, d, x, M.MangleType(e.t), M.TypeLists(e.t), M.ShowType(e.t));
    var v := Number(t, x.c);
    TypeIsRead(t, v.c.Skip(1), e.of);
    var z := Type(t, v.c.Skip(1));
    IsReadTo(t, v.c.Skip(1), z, M.MangleType(e.of), M.TypeLists(e.of), M.ShowType(e.of));
    VtableReads(t, c, x.c.pos, x.c.arg, v, z.c.pos, z.c.arg, M.ShowType(e.t));
    SpecialIsConstruction(t, c, z.c.pos, z.c.arg, M.ShowType(e.t));
  }
}

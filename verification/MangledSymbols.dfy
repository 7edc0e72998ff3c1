/** Whole symbols, global and local: every one that the terms can build is accepted and shown as it is to be shown. */
module MangledSymbols {
  import opened CText
  import opened Tape
  import opened Output
  import opened Recogniser
  import opened Faithful
  import opened DemangleCases
  import opened DemangleReads
  import opened MangledParts
  import opened MangledNames
  import P = DemangleProperties
  import DemangleRoom
  import M = Mangling

  // ---------------------------------------------------------------- local names

  lemma MarkIsRead(t: CString, c: Core, k: M.Mark)
    requires Good(t, c) && At(t, c.pos, M.MangleMark(k)) && (k.Mark? ==> k.n <= INT_MAX)
    requires var ch := t[c.pos + |M.MangleMark(k)|]; if k.Mark? then !IsDigit(ch) else ch != '_'
    ensures MarkTo(t, c, c.pos + |M.MangleMark(k)|)
  {
    hide At, Number, Written, INT_MAX;
    if k.Mark? {
      Cut(t, c.pos, "_", Written(k.n));
      Char(t, c.pos, "_", 0);
      assert M.Number(k.n) == Written(k.n);
      NumberIsRead(t, c.Skip(1), k.n);
    }
  }

  /** What may stand behind a name with its mark. */
  predicate MayFollow(k: M.Mark, ch: char) { if k.Mark? then !IsDigit(ch) else Apart(ch) }

  lemma IdentifierNameIsRead(t: CString, c: Core, id: string, tags: seq<string>)
    requires M.WordOk(M.Identifier(id, tags)) && Good(t, c) && At(t, c.pos, M.Sized(id) + M.MangleTags(tags))
    requires t[c.pos + |M.Sized(id) + M.MangleTags(tags)|] == '_'
    ensures Reads(t, Name(t, c), c.pos + |M.Sized(id) + M.MangleTags(tags)|, c.arg, M.ShowId(id))
  {
    hide Name, UnscopedName, UnqualifiedName, TemplateArgs, Behind, Reads, Links, At;
    hide M.WordOk, M.Sized, M.MangleTags, M.ShowId;
    var s := M.Sized(id) + M.MangleTags(tags);
    SizedStarts(id);
    Char(t, c.pos, s, 0);
    var d, p := Behind(t, c), c.pos + |s|;
    IdentifierIsLinked(t, d, id, tags, "");
    LinkReads(t, UnqualifiedName(t, d), p, c.arg, M.ShowId(id), M.ShowId(id));
    UnscopedIsWord(t, d, p, c.arg, M.ShowId(id));
    ReadIsOk(t, UnscopedName(t, d), p, c.arg, M.ShowId(id));
    NoArgs(t, UnscopedName(t, d).c);
    NameIsPlain(t, c, p, c.arg, M.ShowId(id));
  }

  lemma MarkedUnfolds(name: M.Name, k: M.Mark)
    requires M.NameOk(name) && M.MarkOk(name, k) && k.Mark?
    ensures var w := name.u.w;
            && w.Identifier? && M.WordOk(w) && M.MangleName(name) == M.Sized(w.id) + M.MangleTags(w.tags)
            && M.NameLists(name) == 0 && M.ShowName(name) == M.ShowId(w.id)
  {
    hide M.Sized, M.MangleTags, M.ShowId, M.IsId;
    var u := name.u;
    assert M.UnscopedOk(u) && M.MangleUnscoped(u) == M.MangleWord(u.w) && M.ShowUnscoped(u) == M.ShowWord(u.w);
  }

  /** The name of an entity, before its mark. */
  lemma EntityNameIsRead(t: CString, c: Core, name: M.Name, k: M.Mark)
    requires M.NameOk(name) && M.MarkOk(name, k) && Good(t, c) && At(t, c.pos, M.MangleName(name))
    requires c.arg + M.NameLists(name) <= MAX_LEVELS + 1
    requires var ch := t[c.pos + |M.MangleName(name)|]; if k.Mark? then ch == '_' else Apart(ch)
    ensures Reads(t, Name(t, c), c.pos + |M.MangleName(name)|, c.arg + M.NameLists(name), M.ShowName(name))
  {
    hide Name, Reads, At, M.NameOk, M.MangleName, M.NameLists, M.ShowName, M.WordOk, M.Sized, M.MangleTags, M.ShowId;
    if k.Mark? {
      MarkedUnfolds(name, k);
      IdentifierNameIsRead(t, c, name.u.w.id, name.u.w.tags);
    } else {
      NameIsRead(t, c, name);
    }
  }

  /** A symbol stands there, not too deep, and the text or a group ends behind it. */
  predicate SymbolStands(t: CString, c: Core, s: M.Symbol) {
    && Good(t, c) && At(t, c.pos, M.MangleSymbol(s)) && Ends(t, c.Skip(|M.MangleSymbol(s)|))
    && (s.StringInside? && s.k.NoMark? ==> t[c.pos + |M.MangleSymbol(s)|] != 'E')
    && c.arg + M.SymbolLists(s) <= MAX_LEVELS + 1 && c.local + M.Depth(s) <= MAX_LEVELS + 1
  }

  predicate InsideStands(t: CString, c: Core, outer: M.Symbol, name: M.Name, k: M.Mark) {
    && Good(t, c) && At(t, c.pos, M.MangleInside(outer, name, k))
    && MayFollow(k, t[c.pos + |M.MangleInside(outer, name, k)|])
    && c.arg + M.SymbolLists(outer) + M.NameLists(name) <= MAX_LEVELS + 1 && c.local + M.Depth(outer) <= MAX_LEVELS
  }

  /** Z, a text, E, and two more. */
  lemma EntityParts(t: CString, p: nat, a: string, b: string, m: string)
    requires At(t, p, "Z" + (a + ("E" + (b + m))))
    ensures var e := p + 1 + |a|;
            var n := e + 1 + |b|;
            && t[p] == 'Z' && At(t, p + 1, a) && n + |m| < |t| && t[e] == 'E' && At(t, e + 1, b) && At(t, n, m)
            && (m != "" ==> t[n] == m[0])
    ensures |"Z" + (a + ("E" + (b + m)))| == 2 + |a| + |b| + |m|
  {
    hide At;
    ThreeParts(t, p, "Z", a, "E" + (b + m));
    Char(t, p, "Z", 0);
    var e := p + 1 + |a|;
    ThreeParts(t, e, "E", b, m);
    Char(t, e, "E", 0);
    if m != "" { Char(t, e + 1 + |b|, m, 0); }
  }

  lemma InsideIs(outer: M.Symbol, name: M.Name, k: M.Mark)
    ensures M.MangleInside(outer, name, k) == "Z" + (M.MangleSymbol(outer) + ("E" + (M.MangleName(name) + M.MangleMark(k))))
    ensures if k.Mark? then M.MangleMark(k) != "" && M.MangleMark(k)[0] == '_' else M.MangleMark(k) == ""
  {
    hide M.MangleSymbol, M.MangleName, Written;
  }

  /** The parts of a local name. */
  lemma InsideParts(t: CString, c: Core, outer: M.Symbol, name: M.Name, k: M.Mark)
    requires InsideStands(t, c, outer, name, k) && M.IsScope(outer)
    ensures Good(t, c) && t[c.pos] == 'Z' && c.local <= MAX_LEVELS
    ensures SymbolStands(t, c.(local := c.local + 1).Skip(1), outer)
    ensures var e := c.pos + 1 + |M.MangleSymbol(outer)|;
            var n := e + 1 + |M.MangleName(name)|;
            && n < |t| && t[e] == 'E' && At(t, e + 1, M.MangleName(name)) && At(t, n, M.MangleMark(k))
            && n + |M.MangleMark(k)| == c.pos + |M.MangleInside(outer, name, k)| < |t|
            && (if k.Mark? then t[n] == '_' else Apart(t[n]))
            && MayFollow(k, t[n + |M.MangleMark(k)|])
  {
    InsideIs(outer, name, k);
    hide At, M.MangleSymbol, M.MangleInside, M.MangleName, M.MangleMark, M.SymbolLists, M.NameLists, M.Depth;
    EntityParts(t, c.pos, M.MangleSymbol(outer), M.MangleName(name), M.MangleMark(k));
  }

  lemma {:induction false} InsideIsRead(t: CString, c: Core, outer: M.Symbol, name: M.Name, k: M.Mark)
    requires M.IsScope(outer) && M.SymbolOk(outer) && M.NameOk(name) && M.MarkOk(name, k)
    requires InsideStands(t, c, outer, name, k)
    ensures Reads(t, Name(t, c), c.pos + |M.MangleInside(outer, name, k)|,
                  c.arg + (M.SymbolLists(outer) + M.NameLists(name)), M.ShowSymbol(outer) + ("::" + M.ShowName(name)))
    decreases outer, 3
  {
    hide Name, Encoding, LocalName, LocalEntity, Discriminator, MarkTo, Reads, At, SymbolStands, MayFollow;
    hide M.MangleSymbol, M.MangleInside, M.MangleName, M.MangleMark, M.SymbolLists, M.NameLists, M.Depth;
    hide M.SymbolOk, M.NameOk, M.ShowSymbol, M.ShowName;
    hide InsideStands;
    InsideParts(t, c, outer, name, k);
    InsideHasRoom(t, c, outer, name, k);
    var d := c.(local := c.local + 1);
    SymbolIsRead(t, d.Skip(1), outer);
    var e := Encoding(t, d.Skip(1));
    var pe, qe := c.pos + 1 + |M.MangleSymbol(outer)|, c.arg + M.SymbolLists(outer);
    ReadIsOk(t, e, pe, qe, M.ShowSymbol(outer));
    EntityNameIsRead(t, e.c.Skip(1), name, k);
    var n := Name(t, e.c.Skip(1));
    var pn, q := pe + 1 + |M.MangleName(name)|, qe + M.NameLists(name);
    ReadIsOk(t, n, pn, q, M.ShowName(name));
    MarkBehind(t, n.c, k);
    var p, shown := pn + |M.MangleMark(k)|, M.ShowSymbol(outer) + ("::" + M.ShowName(name));
    EntityReads(t, d, pe, qe, M.ShowSymbol(outer), pn, q, M.ShowName(name), p);
    LocalIsEntity(t, c, p, q, shown);
    NameIsLocal(t, c, p, q, shown);
  }

  lemma InsideHasRoom(t: CString, c: Core, outer: M.Symbol, name: M.Name, k: M.Mark)
    requires InsideStands(t, c, outer, name, k)
    ensures c.arg + M.SymbolLists(outer) + M.NameLists(name) <= MAX_LEVELS + 1
  {
  }

  lemma MarkBehind(t: CString, c: Core, k: M.Mark)
    requires Good(t, c) && At(t, c.pos, M.MangleMark(k)) && c.pos + |M.MangleMark(k)| < |t| && (k.Mark? ==> k.n <= INT_MAX)
    requires MayFollow(k, t[c.pos + |M.MangleMark(k)|])
    ensures MarkTo(t, c, c.pos + |M.MangleMark(k)|)
  {
    hide At, M.MangleMark;
    MarkIsRead(t, c, k);
  }

  lemma {:induction false} SymbolIsRead(t: CString, c: Core, s: M.Symbol)
    requires M.SymbolOk(s) && SymbolStands(t, c, s)
    ensures Reads(t, Encoding(t, c), c.pos + |M.MangleSymbol(s)|, c.arg + M.SymbolLists(s), M.ShowSymbol(s))
    decreases s, 2
  {
    hide Encoding, Reads, SymbolStands, M.EncodingOk, M.Mangle, M.Lists, M.Show;
    match s
    case Outside(e) =>
      OutsideStands(t, c, e);
      EncodingIsRead(t, c, e);
      IsReadTo(t, c, Encoding(t, c), M.Mangle(e), M.Lists(e), M.Show(e));
    case Inside(_, _, _, NoSignature) => InsideDataIsRead(t, c, s);
    case Inside(_, _, _, Signature(_)) => InsideFunctionIsRead(t, c, s);
    case GuardInside(_, _, _) => GuardInsideIsRead(t, c, s);
    case StringInside(_, _) => StringInsideIsRead(t, c, s);
  }

  lemma OutsideStands(t: CString, c: Core, e: M.Encoding)
    requires SymbolStands(t, c, M.Outside(e))
    ensures EncodingStands(t, c, M.Mangle(e), M.Lists(e))
  {
    hide At, M.Mangle, M.Lists;
  }

  lemma InsideUnfolds(s: M.Symbol)
    requires s.Inside? && M.SymbolOk(s)
    ensures M.IsScope(s.outer) && M.SymbolOk(s.outer) && M.NameOk(s.name) && M.MarkOk(s.name, s.k)
    ensures s.s.NoSignature? ==>
              && M.MangleSymbol(s) == M.MangleInside(s.outer, s.name, s.k)
              && M.SymbolLists(s) == M.SymbolLists(s.outer) + M.NameLists(s.name)
              && M.ShowSymbol(s) == M.ShowSymbol(s.outer) + ("::" + M.ShowName(s.name))
    ensures s.s.Signature? ==>
              && M.TypesOk(s.s.params) && (s.k.Mark? ==> !IsDigit(M.MangleTypes(s.s.params)[0]))
              && M.MangleSymbol(s) == M.MangleInside(s.outer, s.name, s.k) + M.MangleTypes(s.s.params)
              && M.SymbolLists(s) == M.SymbolLists(s.outer) + M.NameLists(s.name) + M.TypesLists(s.s.params)
              && M.ShowSymbol(s) == M.ShowSymbol(s.outer) + ("::" + M.ShowName(s.name)) + "()"
    ensures M.Depth(s) == M.Depth(s.outer) + 1
  {
    hide M.NameOk, M.MarkOk, M.MangleInside, M.MangleTypes, M.NameLists, M.TypesLists, M.TypesOk, M.ShowName;
  }

  lemma {:induction false} InsideDataIsRead(t: CString, c: Core, s: M.Symbol)
    requires M.SymbolOk(s) && s.Inside? && s.s.NoSignature? && SymbolStands(t, c, s)
    ensures Reads(t, Encoding(t, c), c.pos + |M.MangleSymbol(s)|, c.arg + M.SymbolLists(s), M.ShowSymbol(s))
    decreases s, 1
  {
    hide Encoding, Name, Reads, At, Ends;
    hide M.SymbolOk, M.MangleSymbol, M.MangleInside, M.SymbolLists, M.NameLists, M.ShowSymbol, M.ShowName, M.Depth;
    InsideUnfolds(s);
    SymbolEnds(t, c, s);
    EndIsApart(t, c.Skip(|M.MangleSymbol(s)|));
    EndIsNoDigit(t, c.Skip(|M.MangleSymbol(s)|));
    InsideIsRead(t, c, s.outer, s.name, s.k);
    var p, q := c.pos + |M.MangleSymbol(s)|, c.arg + M.SymbolLists(s);
    ReadIsOk(t, Name(t, c), p, q, M.ShowSymbol(s));
    EndsAlike(t, c.Skip(|M.MangleSymbol(s)|), Name(t, c).c);
    EncodingIsName(t, c, p, q, M.ShowSymbol(s));
  }

  lemma EndIsNoDigit(t: CString, c: Core)
    requires Good(t, c) && Ends(t, c)
    ensures !IsDigit(t[c.pos]) && (t[c.pos] != 'E' ==> !IsAlpha(t[c.pos]))
  {
  }

  lemma InsideFunctionStands(t: CString, c: Core, s: M.Symbol)
    requires M.SymbolOk(s) && s.Inside? && s.s.Signature? && SymbolStands(t, c, s)
    ensures InsideStands(t, c, s.outer, s.name, s.k)
    ensures var d := c.(pos := c.pos + |M.MangleInside(s.outer, s.name, s.k)|,
                        arg := c.arg + (M.SymbolLists(s.outer) + M.NameLists(s.name)));
            var n := |M.MangleTypes(s.s.params)|;
            && Stands(t, d, M.MangleTypes(s.s.params), M.TypesLists(s.s.params)) && Good(t, d.Skip(n)) && Ends(t, d.Skip(n))
            && d.pos + n == c.pos + |M.MangleSymbol(s)|
  {
    hide At, M.SymbolOk, M.MangleSymbol, M.MangleInside, M.MangleTypes, M.SymbolLists, M.NameLists, M.TypesLists, M.Depth;
    hide M.TypesOk, M.NameOk, M.MarkOk, M.ShowSymbol, M.ShowName;
    InsideUnfolds(s);
    var a, b := M.MangleInside(s.outer, s.name, s.k), M.MangleTypes(s.s.params);
    Cut(t, c.pos, a, b);
    TypesStart(s.s.params);
    Char(t, c.pos + |a|, b, 0);
    OpeningsAreApart(b[0]);
    EndIsApart(t, c.Skip(|M.MangleSymbol(s)|));
    EndsAlike(t, c.Skip(|M.MangleSymbol(s)|), c.(pos := c.pos + |a| + |b|, arg := 0));
  }

  lemma {:induction false} InsideFunctionIsRead(t: CString, c: Core, s: M.Symbol)
    requires M.SymbolOk(s) && s.Inside? && s.s.Signature? && SymbolStands(t, c, s)
    ensures Reads(t, Encoding(t, c), c.pos + |M.MangleSymbol(s)|, c.arg + M.SymbolLists(s), M.ShowSymbol(s))
    decreases s, 1
  {
    hide Encoding, Name, LocalName, BareFunctionType, Reads, At, Ends, Stands, InsideStands, Frozen, Clean, Flat, Exec;
    hide SymbolStands;
    hide M.SymbolOk, M.MangleSymbol, M.MangleInside, M.MangleTypes, M.SymbolLists, M.NameLists, M.TypesLists;
    hide M.ShowSymbol, M.ShowName, M.Depth, M.TypesOk;
    InsideFunctionStands(t, c, s);
    InsideUnfolds(s);
    InsideIsRead(t, c, s.outer, s.name, s.k);
    var n, shown := Name(t, c), M.ShowSymbol(s.outer) + ("::" + M.ShowName(s.name));
    var d := c.(pos := c.pos + |M.MangleInside(s.outer, s.name, s.k)|,
                arg := c.arg + (M.SymbolLists(s.outer) + M.NameLists(s.name)));
    ReadIsOk(t, n, d.pos, d.arg, shown);
    SignatureIsRead(t, n.c, d, s.s.params);
    var p, q := c.pos + |M.MangleSymbol(s)|, c.arg + M.SymbolLists(s);
    EncodingIsFunction(t, c, d.pos, d.arg, shown, p, q);
  }

  lemma GuardUnfolds(s: M.Symbol)
    requires s.GuardInside? && M.SymbolOk(s)
    ensures M.IsScope(s.outer) && M.SymbolOk(s.outer) && M.NameOk(s.name) && M.MarkOk(s.name, s.k)
    ensures M.MangleSymbol(s) == "GV" + M.MangleInside(s.outer, s.name, s.k)
    ensures M.SymbolLists(s) == M.SymbolLists(s.outer) + M.NameLists(s.name) && M.Depth(s) == M.Depth(s.outer) + 2
    ensures M.ShowSymbol(s) == M.ShowSymbol(s.outer) + ("::" + M.ShowName(s.name))
  {
    hide M.NameOk, M.MarkOk, M.MangleInside, M.NameLists, M.ShowName;
  }

  lemma GuardInsideStands(t: CString, c: Core, s: M.Symbol)
    requires M.SymbolOk(s) && s.GuardInside? && SymbolStands(t, c, s)
    ensures Good(t, c) && Is2(t, c, 'G', 'V') && Good(t, c.Skip(2))
    ensures forall d: Core :: Good(t, d) && d.pos == c.pos && d.arg == c.arg && d.local <= c.local + 1 ==>
              InsideStands(t, d.Skip(2), s.outer, s.name, s.k)
  {
    hide At, M.SymbolOk, M.MangleSymbol, M.MangleInside, M.SymbolLists, M.NameLists, M.Depth;
    GuardUnfolds(s);
    SymbolEnds(t, c, s);
    EndIsApart(t, c.Skip(|M.MangleSymbol(s)|));
    EndIsNoDigit(t, c.Skip(|M.MangleSymbol(s)|));
    Cut(t, c.pos, "GV", M.MangleInside(s.outer, s.name, s.k));
    Char(t, c.pos, "GV", 0);
    Char(t, c.pos, "GV", 1);
  }

  lemma {:induction false} GuardInsideIsRead(t: CString, c: Core, s: M.Symbol)
    requires M.SymbolOk(s) && s.GuardInside? && SymbolStands(t, c, s)
    ensures Reads(t, Encoding(t, c), c.pos + |M.MangleSymbol(s)|, c.arg + M.SymbolLists(s), M.ShowSymbol(s))
    decreases s, 1
  {
    hide Encoding, Name, SpecialName, LocalName, Behind, Reads, InsideStands, TriedInVain, At, Frozen, Clean, Flat, Exec;
    hide SymbolStands;
    hide M.SymbolOk, M.MangleSymbol, M.MangleInside, M.SymbolLists, M.NameLists, M.ShowSymbol, M.ShowName, M.Depth;
    GuardInsideStands(t, c, s);
    GuardUnfolds(s);
    EncodingIsSpecial(t, c);
    var d := Behind(t, c);
    InsideIsRead(t, d.Skip(2), s.outer, s.name, s.k);
    var p, q := c.pos + |M.MangleSymbol(s)|, c.arg + M.SymbolLists(s);
    SpecialIsGuard(t, d, p, q, M.ShowSymbol(s));
    VainReads(t, Encoding(t, c), c, Name(t, c), SpecialName(t, d), p, q, M.ShowSymbol(s));
  }

  lemma StringIs(s: M.Symbol)
    requires s.StringInside?
    ensures M.MangleSymbol(s) == "Z" + (M.MangleSymbol(s.outer) + ("E" + ("s" + M.MangleMark(s.k))))
    ensures if s.k.Mark? then M.MangleMark(s.k) != "" && M.MangleMark(s.k)[0] == '_' else M.MangleMark(s.k) == ""
    ensures M.Depth(s) == M.Depth(s.outer) + 1
  {
    hide Written;
    Regrouped("E", "s", M.MangleMark(s.k));
    assert "Es" == "E" + "s";
  }

  /** Z, a text, Es, and a mark. */
  lemma StringText(t: CString, p: nat, a: string, k: M.Mark, end: char)
    requires At(t, p, "Z" + (a + ("E" + ("s" + M.MangleMark(k)))))
    requires end == t[p + 3 + |a| + |M.MangleMark(k)|] && !IsDigit(end) && end != '_' && (k.NoMark? ==> !IsAlpha(end))
    ensures var e := p + 1 + |a|;
            && t[p] == 'Z' && At(t, p + 1, a) && e + 2 + |M.MangleMark(k)| < |t| && t[e] == 'E' && t[e + 1] == 's'
            && !IsAlpha(t[e + 2]) && At(t, e + 2, M.MangleMark(k)) && MayFollow(k, t[e + 2 + |M.MangleMark(k)|])
  {
    hide At, Written;
    EntityParts(t, p, a, "s", M.MangleMark(k));
    Char(t, p + 2 + |a|, "s", 0);
  }

  lemma StringParts(t: CString, c: Core, s: M.Symbol)
    requires M.SymbolOk(s) && s.StringInside? && SymbolStands(t, c, s)
    ensures Good(t, c) && t[c.pos] == 'Z' && c.local <= MAX_LEVELS
    ensures SymbolStands(t, c.(local := c.local + 1).Skip(1), s.outer)
    ensures var e := c.pos + 1 + |M.MangleSymbol(s.outer)|;
            && e + 2 < |t| && t[e] == 'E' && t[e + 1] == 's' && !IsAlpha(t[e + 2])
            && At(t, e + 2, M.MangleMark(s.k)) && e + 2 + |M.MangleMark(s.k)| == c.pos + |M.MangleSymbol(s)| < |t|
            && MayFollow(s.k, t[e + 2 + |M.MangleMark(s.k)|])
  {
    hide At, M.MangleMark, M.SymbolLists, M.SymbolOk, M.Depth, MayFollow, M.MangleSymbol;
    StringIs(s);
    StringIsOk(s);
    SymbolEnds(t, c, s);
    EndIsApart(t, c.Skip(|M.MangleSymbol(s)|));
    EndIsNoDigit(t, c.Skip(|M.MangleSymbol(s)|));
    StringText(t, c.pos, M.MangleSymbol(s.outer), s.k, t[c.pos + |M.MangleSymbol(s)|]);
  }

  lemma {:induction false} StringNameIsRead(t: CString, c: Core, s: M.Symbol)
    requires M.SymbolOk(s) && s.StringInside? && SymbolStands(t, c, s)
    ensures Reads(t, Name(t, c), c.pos + |M.MangleSymbol(s)|, c.arg + M.SymbolLists(s), M.ShowSymbol(s))
    decreases s, 0
  {
    hide Encoding, Name, LocalName, LocalEntity, LocalString, Discriminator, MarkTo, Reads, At, MayFollow;
    hide Frozen, Clean, Flat, Exec, Ends, SymbolStands, M.SymbolOk;
    hide M.MangleSymbol, M.MangleMark, M.ShowSymbol, M.SymbolLists, M.Depth;
    StringParts(t, c, s);
    StringIsOk(s);
    var d := c.(local := c.local + 1);
    SymbolIsRead(t, d.Skip(1), s.outer);
    var e, shown := Encoding(t, d.Skip(1)), M.ShowSymbol(s.outer);
    var pe, q := c.pos + 1 + |M.MangleSymbol(s.outer)|, c.arg + M.SymbolLists(s.outer);
    ReadIsOk(t, e, pe, q, shown);
    MarkBehind(t, e.c.Skip(2), s.k);
    var p := c.pos + |M.MangleSymbol(s)|;
    StringReads(t, d, pe, q, shown, p);
    LocalIsString(t, c, p, q, shown);
    NameIsLocal(t, c, p, q, shown);
  }

  lemma {:induction false} StringInsideIsRead(t: CString, c: Core, s: M.Symbol)
    requires M.SymbolOk(s) && s.StringInside? && SymbolStands(t, c, s)
    ensures Reads(t, Encoding(t, c), c.pos + |M.MangleSymbol(s)|, c.arg + M.SymbolLists(s), M.ShowSymbol(s))
    decreases s, 1
  {
    hide Encoding, Name, Reads, Ends, SymbolStands, Frozen, Clean, Flat, Exec;
    hide M.SymbolOk, M.MangleSymbol, M.ShowSymbol, M.SymbolLists;
    StringNameIsRead(t, c, s);
    SymbolEnds(t, c, s);
    var p, q := c.pos + |M.MangleSymbol(s)|, c.arg + M.SymbolLists(s);
    ReadIsOk(t, Name(t, c), p, q, M.ShowSymbol(s));
    EndsAlike(t, c.Skip(|M.MangleSymbol(s)|), Name(t, c).c);
    EncodingIsName(t, c, p, q, M.ShowSymbol(s));
  }

  lemma StringIsOk(s: M.Symbol)
    requires s.StringInside? && M.SymbolOk(s)
    ensures M.SymbolOk(s.outer) && M.IsScope(s.outer) && (s.k.Mark? ==> s.k.n <= INT_MAX)
    ensures M.SymbolLists(s) == M.SymbolLists(s.outer) && M.ShowSymbol(s) == M.ShowSymbol(s.outer)
  {
  }

  lemma SymbolEnds(t: CString, c: Core, s: M.Symbol)
    requires SymbolStands(t, c, s)
    ensures Good(t, c) && Good(t, c.Skip(|M.MangleSymbol(s)|)) && Ends(t, c.Skip(|M.MangleSymbol(s)|))
  {
  }

  // ---------------------------------------------------------------- whole names

  /** What may stand behind a mangled name: nothing, a clone's suffix, or a version. */
  ghost predicate IsTail(tail: string) {
    || (tail != "" && tail[0] == '@')
    || exists gs :: P.AreGroups(gs) && P.Concat(gs) == tail
  }

  /** Six levels of arguments are counted, and none of them is given back. */
  const MAX_LISTS := 6

  /** Functions may be nested six deep. */
  const MAX_DEPTH := 6

  /** "t" is how "s" is written, with "tail" behind it. */
  ghost predicate IsMangled(t: string, s: M.Symbol, tail: string) {
    && M.SymbolOk(s) && M.SymbolLists(s) <= MAX_LISTS && M.Depth(s) <= MAX_DEPTH && IsTail(tail)
    && t == "_Z" + M.MangleSymbol(s) + tail + "\0"
  }

  /** A version is shown as it is, a clone's suffix is not. */
  function Shown(s: M.Symbol, tail: string): string {
    M.ShowSymbol(s) + if tail != "" && tail[0] == '@' then tail else ""
  }

  lemma TailBegins(tail: string)
    requires IsTail(tail) && tail != ""
    ensures tail[0] == '@' || tail[0] == '.'
  {
    if tail[0] != '@' {
      var gs :| P.AreGroups(gs) && P.Concat(gs) == tail;
      var m :| P.IsGroup(gs[0], m);
      assert tail[0] == gs[0][0];
    }
  }

  lemma WholeStands(t: CString, s: M.Symbol, tail: string)
    requires IsMangled(t, s, tail)
    ensures Is2(t, ENTRY, '_', 'Z') && SymbolStands(t, ENTRY.Skip(2), s)
    ensures var p := 2 + |M.MangleSymbol(s)|; p < |t| && t[p..|t| - 1] == tail && (tail == "" ==> t[p] == '\0')
  {
    hide M.MangleSymbol, M.SymbolLists, M.SymbolOk, M.Depth, IsTail;
    var a := M.MangleSymbol(s);
    assert t[0] == '_' && t[1] == 'Z';
    assert t[2..2 + |a|] == a && t[2 + |a|..|t| - 1] == tail;
    if tail != "" {
      TailBegins(tail);
      assert t[2 + |a|] == t[2 + |a|..|t| - 1][0] == tail[0];
    }
  }

  lemma MangledNameIsRead(t: CString, s: M.Symbol, tail: string)
    requires IsMangled(t, s, tail)
    ensures Reads(t, MangledName(t, ENTRY), 2 + |M.MangleSymbol(s)|, M.SymbolLists(s), M.ShowSymbol(s))
  {
    hide Encoding, Reads, SymbolStands, M.MangleSymbol, M.SymbolLists, M.ShowSymbol, M.SymbolOk, M.Depth, IsTail;
    WholeStands(t, s, tail);
    SymbolIsRead(t, ENTRY.Skip(2), s);
    assert MangledName(t, ENTRY) == Encoding(t, ENTRY.Skip(2));
  }

  /** Every symbol is accepted, whatever may stand behind it, and shown as it is to be shown. */
  lemma MangledIsRead(t: CString, s: M.Symbol, tail: string)
    requires IsMangled(t, s, tail)
    ensures TopLevel(t).ok && Adds(TopLevel(t).tr, Shown(s, tail))
  {
    hide MangledName, CloneSuffix, Adds, Reads, SymbolStands, M.MangleSymbol, M.SymbolLists, M.ShowSymbol, M.SymbolOk;
    MangledNameIsRead(t, s, tail);
    WholeStands(t, s, tail);
    var m := MangledName(t, ENTRY);
    ReadIsOk(t, m, 2 + |M.MangleSymbol(s)|, M.SymbolLists(s), M.ShowSymbol(s));
    if tail != "" && tail[0] == '@' {
      NoSuffix(t, m.c.pos);
      EmitReads(t, m.c, tail);
      Joined(t, m, Res(true, m.c, Emit(tail)), m.c.pos, m.c.arg, M.ShowSymbol(s), m.c.pos, m.c.arg, tail);
      ReadIsOk(t, m.Then(Res(true, m.c, Emit(tail))), m.c.pos, m.c.arg, M.ShowSymbol(s) + tail);
    } else {
      SuffixIsRead(t, m.c.pos, tail);
      assert M.ShowSymbol(s) + "" == M.ShowSymbol(s);
    }
  }

  lemma NoSuffix(t: CString, p: nat)
    requires p < |t| && t[p] == '@'
    ensures !CloneSuffix(t, p)
  {
  }

  lemma SuffixIsRead(t: CString, p: nat, tail: string)
    requires p < |t| && t[p..|t| - 1] == tail && IsTail(tail) && !(tail != "" && tail[0] == '@')
    ensures CloneSuffix(t, p)
  {
    var gs :| P.AreGroups(gs) && P.Concat(gs) == tail;
    P.GroupsAreCloneSuffix(t, p, gs);
  }

  /** A name, and an identifier with arguments behind it. */
  lemma SeventhStands(t: CString, a: string, id: string, args: M.Args, more: string)
    requires args != M.NoArgs && t == "_Z" + (a + (M.Sized(id) + (M.MangleArgs(args) + more)))
    ensures Is2(t, ENTRY, '_', 'Z') && At(t, 2, a) && At(t, 2 + |a|, M.Sized(id))
    ensures Apart(t[2 + |a|]) && t[2 + |a| + |M.Sized(id)|] == 'I'
  {
    hide M.Sized, M.MangleArgs;
    var w := M.Sized(id);
    assert t[2..2 + |a|] == a && t[2 + |a|..2 + |a| + |w|] == w && t[2 + |a| + |w|..] == M.MangleArgs(args) + more;
    ArgsOpen(args);
    assert t[2 + |a| + |w|] == t[2 + |a| + |w|..][0] == 'I';
    SizedStarts(id);
    assert t[2 + |a|] == w[0];
  }

  /** The level of a list is never given back: behind six of them, however deep, a seventh ends the parse. */
  lemma SeventhListIsRefused(t: CString, name: M.Name, id: string, args: M.Args, more: string)
    requires M.NameOk(name) && M.NameLists(name) == MAX_LISTS && M.IsId(id) && args != M.NoArgs
    requires t == "_Z" + (M.MangleName(name) + (M.Sized(id) + (M.MangleArgs(args) + more)))
    ensures !TopLevel(t).ok
  {
    hide Encoding, Name, LocalName, BareFunctionType, TopLevel, At, Reads, Frozen, Clean, Flat, Exec;
    hide M.NameOk, M.MangleName, M.NameLists, M.ShowName, M.Sized, M.MangleArgs, M.IsId;
    var c, a, w := ENTRY.Skip(2), M.MangleName(name), M.Sized(id);
    SeventhStands(t, a, id, args, more);
    NameIsRead(t, c, name);
    var n := Name(t, c);
    IsReadTo(t, c, n, a, MAX_LISTS, M.ShowName(name));
    BareInstanceIsRead(t, n.c, id);
    EncodingIsFunction(t, c, n.c.pos, n.c.arg, M.ShowName(name), n.c.pos + |w|, n.c.arg);
    ReadIsOk(t, Encoding(t, c), n.c.pos + |w|, n.c.arg, M.ShowName(name) + "()");
    StopsShort(t, n.c.pos + |w|);
  }

  lemma StopsShort(t: CString, p: nat)
    requires p < |t| && Is2(t, ENTRY, '_', 'Z') && Encoding(t, ENTRY.Skip(2)).ok
    requires Encoding(t, ENTRY.Skip(2)).c.pos == p && t[p] == 'I'
    ensures !TopLevel(t).ok
  {
    hide Encoding;
  }

  /** Its arguments are not looked at: the template alone is read as a type. */
  lemma BareInstanceIsRead(t: CString, c: Core, id: string)
    requires M.IsId(id) && Good(t, c) && At(t, c.pos, M.Sized(id)) && t[c.pos + |M.Sized(id)|] == 'I'
    requires c.arg == MAX_LEVELS + 1
    ensures Reads(t, BareFunctionType(t, c), c.pos + |M.Sized(id)|, c.arg, "()")
  {
    hide Type, PlainType, Name, UnscopedName, UnqualifiedName, SourceName, TypePlus, TypeStar, TemplateArgs, Behind;
    hide BareFunctionType, Reads, Links, TagsTo, M.Sized, M.ShowId;
    SourceReads(t, c, id);
    var d, p := Behind(t, c), c.pos + |M.Sized(id)|;
    SourceIsRead(t, d, id);
    NoTags(t, d.(pos := p));
    SourceLinks(t, d, "", M.ShowId(id), p);
    LinkReads(t, UnqualifiedName(t, d), p, c.arg, M.ShowId(id), M.ShowId(id));
    UnscopedIsWord(t, d, p, c.arg, M.ShowId(id));
    ReadIsOk(t, UnscopedName(t, d), p, c.arg, M.ShowId(id));
    LevelsAreUsedUp(t, UnscopedName(t, d).c);
    NameIsPlain(t, c, p, c.arg, M.ShowId(id));
    PlainIsName(t, c, p, c.arg, M.ShowId(id));
    TypeIsPlain(t, c, p, c.arg, M.ShowId(id));
    ReadIsOk(t, Type(t, c), p, c.arg, M.ShowId(id));
    NoMoreTypes(t, Type(t, c).c);
    FirstType(t, c, p, c.arg);
    SignatureReads(t, c, p, c.arg);
  }

  /** A buffer holds "s" as a C string. */
  predicate Holds(bytes: string, s: string) { |s| < |bytes| && bytes[..|s|] == s && bytes[|s|] == '\0' }

  /** In a buffer with room. */
  lemma MangledIsShown(t: CString, s: M.Symbol, tail: string, bytes: string, behind: nat -> char)
    requires IsMangled(t, s, tail) && |bytes| > |t| * (|t| + 41)
    ensures var o := Exec(TopLevel(t).tr, Start(bytes, behind));
            TopLevel(t).ok && !o.tape.overflowed && Holds(o.tape.bytes, Shown(s, tail))
  {
    hide TopLevel, Exec, Shown, IsMangled, Clipped;
    MangledIsRead(t, s, tail);
    DemangleRoom.RoomIsEnough(t, bytes, behind);
    UnclippedShows(TopLevel(t).tr, bytes, behind);
    var o := Exec(TopLevel(t).tr, Start(bytes, behind));
    assert o.text == "" + Shown(s, tail) == Shown(s, tail);
  }
}

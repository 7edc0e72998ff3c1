/** The demangler's grammar as a pure function of the text, a position and three recursion
    budgets. No output field occurs here: what is accepted cannot depend on what is printed. */
module Recogniser {
  import opened CText
  import opened Output

  /** The part of the demangler's state that decides acceptance. */
  datatype Core = Core(pos: nat, local: nat, expr: nat, arg: nat) {
    function Skip(n: nat): Core { this.(pos := pos + n) }
  }

  datatype Res = Res(ok: bool, c: Core, tr: Trace) {
    /** "next" ran where this one stopped. */
    function Then(next: Res): (r: Res)
      ensures Frozen(r.tr) <==> Frozen(tr) && Frozen(next.tr)
      ensures Clean(r.tr) <==> Clean(tr) && Clean(next.tr)
      ensures Flat(r.tr) <==> Flat(tr) && Flat(next.tr)
      ensures forall o {:trigger Exec(r.tr, o)} :: Exec(r.tr, o) == Exec(next.tr, Exec(tr, o))
    {
      Res(next.ok, next.c, Both(tr, next.tr))
    }

    /** The attempt failed and the state saved at "c0" was put back. */
    function Undo(c0: Core): (r: Res)
      ensures Frozen(r.tr) && Flat(r.tr) && (Clean(r.tr) <==> Clean(tr))
      ensures forall o {:trigger Exec(r.tr, o)} :: Exec(r.tr, o) == Exec(tr, o).Rollback(o)
    {
      Res(false, c0, Attempt(tr))
    }

    /** One more action at the end. */
    function Do(act: Trace): (r: Res)
      ensures Clean(r.tr) <==> Clean(tr) && Clean(act)
      ensures Flat(r.tr) <==> Flat(tr) && Flat(act)
      ensures forall o {:trigger Exec(r.tr, o)} :: Exec(r.tr, o) == Exec(act, Exec(tr, o))
    {
      Res(ok, c, Both(tr, act))
    }

    function Mute(): (r: Res)
      ensures (Clean(r.tr) <==> Clean(tr)) && (Flat(r.tr) <==> Flat(tr))
      ensures forall o {:trigger Exec(r.tr, o)} :: Exec(r.tr, o) == Exec(tr, o.(append := false)).(append := o.append)
    {
      Res(ok, c, Muted(tr))
    }

    function Nest(): (r: Res)
      ensures Flat(r.tr) && (Clean(r.tr) <==> Clean(tr))
      ensures forall o {:trigger Exec(r.tr, o)} :: Exec(r.tr, o) == Exec(tr, o.(nest := 0)).(nest := o.nest)
    {
      Res(ok, c, Nested(tr))
    }

    /** "n" more characters read. */
    function Eat(n: nat): Res { Res(ok, c.Skip(n), tr) }
  }

  const MAX_LEVELS := 5

  predicate Good(t: CString, c: Core) {
    c.pos < |t| && c.local <= MAX_LEVELS + 1 && c.expr <= MAX_LEVELS + 1 && c.arg <= MAX_LEVELS + 1
  }

  predicate Above(c: Core, d: Core) {
    c.pos <= d.pos && c.local <= d.local && c.expr <= d.expr && c.arg <= d.arg
  }

  /** Cursor inside the text, budgets between entry value and 6, nothing printed but text. */
  predicate Stays(t: CString, c: Core, r: Res) {
    Good(t, r.c) && Above(c, r.c) && Clean(r.tr)
  }

  /** ... progress on success, no deeper nesting, and a failure prints nothing that is not taken back. */
  predicate Advances(t: CString, c: Core, r: Res) {
    Stays(t, c, r) && Flat(r.tr) && (if r.ok then c.pos < r.c.pos else Frozen(r.tr))
  }

  /** ... and on failure the cursor is back where it was. */
  predicate Moves(t: CString, c: Core, r: Res) {
    Advances(t, c, r) && (r.ok || r.c.pos == c.pos)
  }

  function Fail(c: Core): Res { Res(false, c, Nothing) }

  function Pass(c: Core): Res { Res(true, c, Nothing) }

  predicate Is(t: CString, c: Core, ch: char)
    requires Good(t, c)
  {
    t[c.pos] == ch
  }

  predicate Is2(t: CString, c: Core, a: char, b: char)
    requires Good(t, c)
  {
    t[c.pos] == a && c.pos + 1 < |t| && t[c.pos + 1] == b
  }

  /** The current character is in "cls", which never holds the terminator. */
  predicate IsAny(t: CString, c: Core, cls: string)
    requires Good(t, c)
  {
    t[c.pos] in cls && t[c.pos] != '\0'
  }

  lemma AnyDigit(t: CString, c: Core)
    requires Good(t, c)
    ensures IsAny(t, c, "0123456789") <==> IsDigit(t[c.pos])
    ensures IsAny(t, c, "123") <==> '1' <= t[c.pos] <= '3'
    ensures IsAny(t, c, "012") <==> '0' <= t[c.pos] <= '2'
  {
  }

  // ---------------------------------------------------------------- tables

  /** A name in a table. */
  type Label = s: string | '\0' !in s && |s| <= 18 witness ""

  datatype Abbrev = Abbrev(first: Letter, second: char, name: Label)

  /** The tables in their own order, in rows. */
  const OPERATORS: seq<Abbrev> := UNARY + BINARY + ASSIGNING + SHIFTING + COMPARING + LOGICAL + OTHER

  const UNARY: seq<Abbrev> := [
    Abbrev('n', 'w', "new"), Abbrev('n', 'a', "new[]"), Abbrev('d', 'l', "delete"), Abbrev('d', 'a', "delete[]"),
    Abbrev('p', 's', "+"), Abbrev('n', 'g', "-"), Abbrev('a', 'd', "&"), Abbrev('d', 'e', "*"), Abbrev('c', 'o', "~")]

  const BINARY: seq<Abbrev> := [
    Abbrev('p', 'l', "+"), Abbrev('m', 'i', "-"), Abbrev('m', 'l', "*"), Abbrev('d', 'v', "/"), Abbrev('r', 'm', "%"),
    Abbrev('a', 'n', "&"), Abbrev('o', 'r', "|"), Abbrev('e', 'o', "^")]

  const ASSIGNING: seq<Abbrev> := [
    Abbrev('a', 'S', "="), Abbrev('p', 'L', "+="), Abbrev('m', 'I', "-="), Abbrev('m', 'L', "*="),
    Abbrev('d', 'V', "/="), Abbrev('r', 'M', "%="), Abbrev('a', 'N', "&="), Abbrev('o', 'R', "|="),
    Abbrev('e', 'O', "^=")]

  const SHIFTING: seq<Abbrev> := [
    Abbrev('l', 's', "<<"), Abbrev('r', 's', ">>"), Abbrev('l', 'S', "<<="), Abbrev('r', 'S', ">>=")]

  const COMPARING: seq<Abbrev> := [
    Abbrev('e', 'q', "=="), Abbrev('n', 'e', "!="), Abbrev('l', 't', "<"), Abbrev('g', 't', ">"),
    Abbrev('l', 'e', "<="), Abbrev('g', 'e', ">=")]

  const LOGICAL: seq<Abbrev> := [
    Abbrev('n', 't', "!"), Abbrev('a', 'a', "&&"), Abbrev('o', 'o', "||")]

  const OTHER: seq<Abbrev> := [
    Abbrev('p', 'p', "++"), Abbrev('m', 'm', "--"), Abbrev('c', 'm', ","), Abbrev('p', 'm', "->*"),
    Abbrev('p', 't', "->"), Abbrev('c', 'l', "()"), Abbrev('i', 'x', "[]"), Abbrev('q', 'u', "?"),
    Abbrev('s', 't', "sizeof"), Abbrev('s', 'z', "sizeof")]

  const BUILTINS: seq<Abbrev> := SHORTER + LONGER

  const SHORTER: seq<Abbrev> := [
    Abbrev('v', '\0', "void"), Abbrev('w', '\0', "wchar_t"), Abbrev('b', '\0', "bool"), Abbrev('c', '\0', "char"),
    Abbrev('a', '\0', "signed char"), Abbrev('h', '\0', "unsigned char"), Abbrev('s', '\0', "short"),
    Abbrev('t', '\0', "unsigned short"), Abbrev('i', '\0', "int"), Abbrev('j', '\0', "unsigned int")]

  const LONGER: seq<Abbrev> := [
    Abbrev('l', '\0', "long"), Abbrev('m', '\0', "unsigned long"), Abbrev('x', '\0', "long long"),
    Abbrev('y', '\0', "unsigned long long"), Abbrev('n', '\0', "__int128"), Abbrev('o', '\0', "unsigned __int128"),
    Abbrev('f', '\0', "float"), Abbrev('d', '\0', "double"), Abbrev('e', '\0', "long double"),
    Abbrev('g', '\0', "__float128"), Abbrev('z', '\0', "ellipsis")]

  const SUBSTITUTIONS: seq<Abbrev> := [
    Abbrev('S', 't', ""), Abbrev('S', 'a', "allocator"), Abbrev('S', 'b', "basic_string"),
    Abbrev('S', 's', "string"), Abbrev('S', 'i', "istream"), Abbrev('S', 'o', "ostream"),
    Abbrev('S', 'd', "iostream")]

  datatype Key = First(a: char) | Second(b: char) | Pair(a: char, b: char)

  predicate Hits(e: Abbrev, key: Key) {
    match key
    case First(a) => e.first == a
    case Second(b) => e.second == b
    case Pair(a, b) => e.first == a && e.second == b
  }

  /** The first entry at or after "i" with this key, or the length of the table. */
  function Lookup(table: seq<Abbrev>, key: Key, i: nat): (k: nat)
    requires i <= |table|
    ensures i <= k <= |table|
    ensures k < |table| ==> Hits(table[k], key)
    ensures forall j :: i <= j < k ==> !Hits(table[j], key)
    decreases |table| - i
  {
    if i == |table| || Hits(table[i], key) then i else Lookup(table, key, i + 1)
  }

  lemma SubstitutionsHaveNoNul()
    ensures forall k :: 0 <= k < |SUBSTITUTIONS| ==> SUBSTITUTIONS[k].second != '\0'
  {
  }

  // ---------------------------------------------------------------- terminals and leaves

  datatype NumRes = NumRes(ok: bool, c: Core, value: int)

  /** [n] digits; fails, past the 'n', if there is no digit or the value exceeds an int. */
  function Number(t: CString, c: Core): (r: NumRes)
    requires Good(t, c)
    ensures Good(t, r.c) && r.c == c.(pos := r.c.pos) && c.pos <= r.c.pos && (r.ok ==> c.pos < r.c.pos)
  {
    var neg := Is(t, c, 'n');
    var p := if neg then c.pos + 1 else c.pos;
    var q := RunEnd(t, p, IsDigit);
    if q == p then NumRes(false, c.(pos := p), 0) else
      var v: int := Decimal(t[p..q]);
      if v > INT_MAX then NumRes(false, c.(pos := p), 0)
      else NumRes(true, c.(pos := q), if neg then -v else v)
  }

  predicate IsLowerHex(c: char) { IsDigit(c) || 'a' <= c <= 'f' }

  predicate IsSeqChar(c: char) { IsDigit(c) || 'A' <= c <= 'Z' }

  const ANONYMOUS := "_GLOBAL__N_"

  function IdentifierText(t: CString, p: nat, len: nat): (s: string)
    requires p + len < |t|
    ensures '\0' !in s
  {
    if len > |ANONYMOUS| && StartsWith(t, p, ANONYMOUS) then "(anonymous namespace)" else t[p..p + len]
  }

  function SourceName(t: CString, c: Core): (r: Res)
    requires Good(t, c)
    ensures Moves(t, c, r) && (!r.ok ==> r.c == c)
  {
    var n := Number(t, c);
    if n.ok && n.value >= 0 && HasChars(t, n.c.pos, n.value)
    then Res(true, n.c.Skip(n.value), Emit(IdentifierText(t, n.c.pos, n.value)))
    else Fail(c)
  }

  function Discriminator(t: CString, c: Core): (r: Res)
    requires Good(t, c)
    ensures Moves(t, c, r) && (!r.ok ==> r.c == c)
    ensures r.tr == Nothing
  {
    if !Is(t, c, '_') then Fail(c) else
      var n := Number(t, c.Skip(1));
      if n.ok then Pass(n.c) else Fail(c)
  }

  function LocalSourceName(t: CString, c: Core): (r: Res)
    requires Good(t, c)
    ensures Moves(t, c, r) && (!r.ok ==> r.c == c)
  {
    if !Is(t, c, 'L') then Fail(c) else
      var s := SourceName(t, c.Skip(1));
      if s.ok then Res(true, Discriminator(t, s.c).c, s.tr) else Fail(c)
  }

  /** Does not put the cursor back: a failing 'B' stays consumed. */
  function AbiTag(t: CString, c: Core): (r: Res)
    requires Good(t, c)
    ensures Advances(t, c, r)
  {
    if Is(t, c, 'B') then SourceName(t, c.Skip(1)) else Fail(c)
  }

  /** As many tags as there are; where the last, failing one stops, parsing goes on. */
  function AbiTagStar(t: CString, c: Core): (r: Res)
    requires Good(t, c)
    ensures Stays(t, c, r) && Flat(r.tr) && r.ok
    decreases |t| - c.pos
  {
    var a := AbiTag(t, c);
    if a.ok then a.Then(AbiTagStar(t, a.c)) else Res(true, a.c, a.tr)
  }

  function AbiTagPlus(t: CString, c: Core): (r: Res)
    requires Good(t, c)
    ensures Advances(t, c, r)
  {
    var a := AbiTag(t, c);
    if a.ok then a.Then(AbiTagStar(t, a.c)) else a
  }

  function AbiTags(t: CString, c: Core): (r: Res)
    requires Good(t, c)
    ensures Moves(t, c, r) && (!r.ok ==> r.c == c)
  {
    var s := AbiTagPlus(t, c);
    if s.ok then s.Mute() else s.Mute().Undo(c)
  }

  function VOffset(t: CString, c: Core): (r: Res)
    requires Good(t, c)
    ensures Moves(t, c, r) && r.tr == Nothing && (!r.ok ==> r.c == c)
  {
    var a := Number(t, c);
    if !(a.ok && Is(t, a.c, '_')) then Fail(c) else
      var b := Number(t, a.c.Skip(1));
      if b.ok then Pass(b.c) else Fail(c)
  }

  /** h nv-offset _ */
  function ThisOffset(t: CString, c: Core): (r: Res)
    requires Good(t, c)
    ensures Moves(t, c, r) && r.tr == Nothing && (!r.ok ==> r.c == c)
  {
    if !Is(t, c, 'h') then Fail(c) else
      var n := Number(t, c.Skip(1));
      if n.ok && Is(t, n.c, '_') then Pass(n.c.Skip(1)) else Fail(c)
  }

  /** v v-offset _ */
  function VirtualOffset(t: CString, c: Core): (r: Res)
    requires Good(t, c)
    ensures Moves(t, c, r) && r.tr == Nothing && (!r.ok ==> r.c == c)
  {
    if !Is(t, c, 'v') then Fail(c) else
      var n := VOffset(t, c.Skip(1));
      if n.ok && Is(t, n.c, '_') then Pass(n.c.Skip(1)) else Fail(c)
  }

  function CallOffset(t: CString, c: Core): (r: Res)
    requires Good(t, c)
    ensures Moves(t, c, r) && r.tr == Nothing && (!r.ok ==> r.c == c)
  {
    if ThisOffset(t, c).ok then ThisOffset(t, c) else VirtualOffset(t, c)
  }

  function CtorName(t: CString, c: Core): (r: Res)
    requires Good(t, c)
    ensures Moves(t, c, r) && (!r.ok ==> r == Fail(c))
  {
    if Is(t, c, 'C') && '1' <= t[c.pos + 1] <= '3' then Res(true, c.Skip(2), EmitPrev) else Fail(c)
  }

  function DtorName(t: CString, c: Core): (r: Res)
    requires Good(t, c)
    ensures Moves(t, c, r) && (!r.ok ==> r == Fail(c))
  {
    if Is(t, c, 'D') && '0' <= t[c.pos + 1] <= '2' then Res(true, c.Skip(2), Emit("~")).Do(EmitPrev) else Fail(c)
  }

  function CtorDtorName(t: CString, c: Core): (r: Res)
    requires Good(t, c)
    ensures Moves(t, c, r) && (!r.ok ==> r.c == c)
  {
    if CtorName(t, c).ok then CtorName(t, c) else DtorName(t, c)
  }

  function CVQualifiers(t: CString, c: Core): (r: Res)
    requires Good(t, c)
    ensures Moves(t, c, r) && r.tr == Nothing && (!r.ok ==> r.c == c)
  {
    var c1 := if Is(t, c, 'r') then c.Skip(1) else c;
    var c2 := if Is(t, c1, 'V') then c1.Skip(1) else c1;
    var c3 := if Is(t, c2, 'K') then c2.Skip(1) else c2;
    Res(c3.pos > c.pos, c3, Nothing)
  }

  function BuiltinType(t: CString, c: Core): (r: Res)
    requires Good(t, c)
    ensures Moves(t, c, r) && (!r.ok ==> r.c == c)
  {
    hide BUILTINS;
    var k := Lookup(BUILTINS, First(t[c.pos]), 0);
    if k < |BUILTINS| then Res(true, c.Skip(1), Emit(BUILTINS[k].name)) else
    if !Is(t, c, 'u') then Fail(c) else
      var s := SourceName(t, c.Skip(1));
      if s.ok then s else Fail(c)
  }

  function TemplateParam(t: CString, c: Core): (r: Res)
    requires Good(t, c)
    ensures Moves(t, c, r) && (!r.ok ==> r.c == c)
  {
    if Is2(t, c, 'T', '_') then Res(true, c.Skip(2), Emit("?")) else
    if !Is(t, c, 'T') then Fail(c) else
      var n := Number(t, c.Skip(1));
      if n.ok && Is(t, n.c, '_') then Res(true, n.c.Skip(1), Emit("?")) else Fail(c)
  }

  /** "std", and "::" with the full name when there is one. */
  function StdTrace(name: string): Trace {
    if name == "" then Emit("std") else Both(Emit("std"), Both(Emit("::"), Emit(name)))
  }

  /** S seq-id _ */
  function NumberedSubstitution(t: CString, c: Core): (r: Res)
    requires Good(t, c)
    ensures Moves(t, c, r) && (!r.ok ==> r == Fail(c))
  {
    if !Is(t, c, 'S') then Fail(c) else
      var q := RunEnd(t, c.pos + 1, IsSeqChar);
      if q > c.pos + 1 && t[q] == '_' then Res(true, c.(pos := q + 1), Emit("?")) else Fail(c)
  }

  /** St and the other abbreviations. */
  function StdSubstitution(t: CString, c: Core): (r: Res)
    requires Good(t, c)
    ensures Moves(t, c, r) && (!r.ok ==> r == Fail(c))
  {
    if !Is(t, c, 'S') then Fail(c) else
      var k := Lookup(SUBSTITUTIONS, Second(t[c.pos + 1]), 0);
      SubstitutionsHaveNoNul();
      if k < |SUBSTITUTIONS| then Res(true, c.Skip(2), StdTrace(SUBSTITUTIONS[k].name)) else Fail(c)
  }

  function Substitution(t: CString, c: Core): (r: Res)
    requires Good(t, c)
    ensures Moves(t, c, r) && (!r.ok ==> r == Fail(c))
  {
    if Is2(t, c, 'S', '_') then Res(true, c.Skip(2), Emit("?")) else
    if NumberedSubstitution(t, c).ok then NumberedSubstitution(t, c) else StdSubstitution(t, c)
  }

  function TemplateTemplateParam(t: CString, c: Core): (r: Res)
    requires Good(t, c)
    ensures Moves(t, c, r) && (!r.ok ==> r.c == c)
  {
    var a := TemplateParam(t, c);
    if a.ok then a else a.Then(Substitution(t, a.c))
  }

  // ---------------------------------------------------------------- the recursive nonterminals

  function MangledName(t: CString, c: Core): (r: Res)
    requires Good(t, c)
    ensures Advances(t, c, r)
    decreases |t| - c.pos, 0
  {
    if Is2(t, c, '_', 'Z') then Encoding(t, c.Skip(2)) else Fail(c)
  }

  function Encoding(t: CString, c: Core): (r: Res)
    requires Good(t, c)
    ensures Moves(t, c, r)
    decreases |t| - c.pos, 6
  {
    var n := Name(t, c);
    var f := if n.ok then n.Then(BareFunctionType(t, n.c)) else n;
    if f.ok then f else
      var d := f.Undo(c).Then(n);
      if d.ok then d else d.Then(SpecialName(t, d.c))
  }

  function Name(t: CString, c: Core): (r: Res)
    requires Good(t, c)
    ensures Moves(t, c, r)
    decreases |t| - c.pos, 5
  {
    var a := NestedName(t, c);
    if a.ok then a else
      var b := a.Then(LocalName(t, a.c));
      if b.ok then b else
        var u := UnscopedTemplateName(t, b.c);
        var v := if u.ok then u.Then(TemplateArgs(t, u.c)) else u;
        if v.ok then b.Then(v) else b.Then(v.Undo(b.c)).Then(UnscopedName(t, b.c))
  }

  function UnscopedName(t: CString, c: Core): (r: Res)
    requires Good(t, c)
    ensures Moves(t, c, r)
    decreases |t| - c.pos, 3
  {
    var a := UnqualifiedName(t, c);
    if a.ok then a else
    if !Is2(t, a.c, 'S', 't') then a else
      var b := Res(true, a.c.Skip(2), Emit("std::")).Then(UnqualifiedName(t, a.c.Skip(2)));
      if b.ok then a.Then(b) else a.Then(b.Undo(a.c))
  }

  function UnscopedTemplateName(t: CString, c: Core): (r: Res)
    requires Good(t, c)
    ensures Moves(t, c, r)
    decreases |t| - c.pos, 4
  {
    var a := UnscopedName(t, c);
    if a.ok then a else a.Then(Substitution(t, a.c))
  }

  function NestedName(t: CString, c: Core): (r: Res)
    requires Good(t, c)
    ensures Moves(t, c, r) && (!r.ok ==> r.c == c)
    decreases |t| - c.pos, 0
  {
    if !Is(t, c, 'N') then Fail(c) else
      var q := CVQualifiers(t, c.Skip(1));
      var p := Prefix(t, q.c, false);
      if Is(t, p.c, 'E') then p.Nest().Eat(1) else p.Nest().Undo(c)
  }

  /** One component of a prefix. */
  function PrefixPart(t: CString, c: Core): (r: Res)
    requires Good(t, c)
    ensures Moves(t, c, r)
    decreases |t| - c.pos, 4
  {
    var a := TemplateParam(t, c);
    if a.ok then a else
      var b := a.Then(Substitution(t, a.c));
      if b.ok then b else b.Then(UnscopedName(t, b.c))
  }

  /** The prefix loop; "some" is has_something. Always succeeds, perhaps on nothing. */
  function Prefix(t: CString, c: Core, some: bool): (r: Res)
    requires Good(t, c)
    ensures Stays(t, c, r) && r.ok
    decreases |t| - c.pos, 5
  {
    var a := PrefixPart(t, c);
    if a.ok then Res(true, c, Separator).Then(a).Do(Deeper).Then(Prefix(t, a.c, true)) else
      var b := Res(true, a.c, Retracted(a.tr));
      if !some then b else
        var d := b.Then(TemplateArgs(t, b.c));
        if d.ok then d.Then(Prefix(t, d.c, false)) else Res(true, d.c, d.tr)
  }

  /** One turn of the loop: a component and the rest, or what comes when there is none. */
  lemma PrefixTurn(t: CString, c: Core, some: bool, o: Out)
    requires Good(t, c)
    ensures var a, p := PrefixPart(t, c), Prefix(t, c, some);
            && Moves(t, c, a)
            && (a.ok ==> var rest := Prefix(t, a.c, true);
                         p.c == rest.c && Exec(p.tr, o) == Exec(rest.tr, Exec(a.tr, o.Separate()).Descend()))
            && (!a.ok && !some ==> p.c == a.c && Exec(p.tr, o) == Exec(a.tr, o.Separate()).Cancel())
            && (!a.ok && some ==>
                  var d, q := TemplateArgs(t, a.c), Exec(a.tr, o.Separate()).Cancel();
                  && Good(t, d.c)
                  && if d.ok then var rest := Prefix(t, d.c, false);
                                  p.c == rest.c && Exec(p.tr, o) == Exec(rest.tr, Exec(d.tr, q))
                     else p.c == d.c && Exec(p.tr, o) == Exec(d.tr, q))
  {
    hide PrefixPart, TemplateArgs, Frozen, Clean, Flat, Out.Separate, Out.Cancel, Out.Descend;
  }

  function UnqualifiedName(t: CString, c: Core): (r: Res)
    requires Good(t, c)
    ensures Moves(t, c, r)
    decreases |t| - c.pos, 2
  {
    var a := OperatorName(t, c);
    if a.ok then a else
      var b := a.Then(CtorDtorName(t, a.c));
      if b.ok then b else
        var d := b.Then(SourceName(t, b.c));
        if d.ok then Tagged(t, d) else
          var e := d.Then(LocalSourceName(t, d.c));
          if e.ok then Tagged(t, e) else e
  }

  /** Optional ABI tags after a name. */
  function Tagged(t: CString, n: Res): Res
    requires Good(t, n.c)
  {
    var g := n.Then(AbiTags(t, n.c));
    Res(true, g.c, g.tr)
  }

  function OperatorName(t: CString, c: Core): (r: Res)
    requires Good(t, c)
    ensures Moves(t, c, r) && (!r.ok ==> r.c == c)
    decreases |t| - c.pos, 1
  {
    if !HasChars(t, c.pos, 2) then Fail(c) else
      var a := Conversion(t, c);
      if a.ok then a else
      var b := a.Then(VendorOperator(t, c));
      if b.ok then b else b.Then(PlainOperator(t, c))
  }

  /** cv type */
  function Conversion(t: CString, c: Core): (r: Res)
    requires Good(t, c)
    ensures Moves(t, c, r) && (!r.ok ==> r.c == c)
    decreases |t| - c.pos, 0
  {
    if !Is2(t, c, 'c', 'v') then Fail(c) else
      var y := Res(true, c.Skip(2), Emit("operator ")).Then(Type(t, c.Skip(2)).Nest());
      if y.ok then y else y.Undo(c)
  }

  /** v digit source-name */
  function VendorOperator(t: CString, c: Core): (r: Res)
    requires Good(t, c)
    ensures Moves(t, c, r) && (!r.ok ==> r.c == c)
  {
    if !(Is(t, c, 'v') && IsDigit(t[c.pos + 1])) then Fail(c) else
      var s := SourceName(t, c.Skip(2));
      if s.ok then s else s.Undo(c)
  }

  function FirstChar(s: string): char { if s == "" then '\0' else s[0] }

  function OperatorTrace(name: Text): (tr: Trace)
    ensures Clean(tr) && Flat(tr)
  {
    Both(Both(Emit("operator"), if IsLower(FirstChar(name)) then Emit(" ") else Nothing), Emit(name))
  }

  lemma OperatorRun(name: Text, o: Out)
    ensures Exec(OperatorTrace(name), o) ==
              (if IsLower(FirstChar(name)) then o.Print("operator").Print(" ") else o.Print("operator")).Print(name)
  {
    var gap := if IsLower(FirstChar(name)) then Emit(" ") else Nothing;
    assert Exec(Both(Emit("operator"), gap), o) == Exec(gap, o.Print("operator"));
  }

  function PlainOperator(t: CString, c: Core): (r: Res)
    requires Good(t, c) && HasChars(t, c.pos, 2)
    ensures Moves(t, c, r) && (!r.ok ==> r == Fail(c))
  {
    hide OPERATORS;
    if !(IsLower(t[c.pos]) && IsAlpha(t[c.pos + 1])) then Fail(c) else
      var k := Lookup(OPERATORS, Pair(t[c.pos], t[c.pos + 1]), 0);
      if k < |OPERATORS| then Res(true, c.Skip(2), OperatorTrace(OPERATORS[k].name)) else Fail(c)
  }

  /** T, a letter of "cls", a type. */
  function SpecialType(t: CString, c: Core, cls: string): (r: Res)
    requires Good(t, c)
    ensures Moves(t, c, r) && (!r.ok ==> r.c == c)
    decreases |t| - c.pos, 0
  {
    if !(Is(t, c, 'T') && IsAny(t, c.Skip(1), cls)) then Fail(c) else
      var y := Type(t, c.Skip(2));
      if y.ok then y else y.Undo(c)
  }

  /** Tc, two call offsets, an encoding. */
  function CovariantThunk(t: CString, c: Core): (r: Res)
    requires Good(t, c)
    ensures Moves(t, c, r) && (!r.ok ==> r.c == c)
    decreases |t| - c.pos, 0
  {
    if !Is2(t, c, 'T', 'c') then Fail(c) else
      var x := CallOffset(t, c.Skip(2));
      if !x.ok then Fail(c) else
        var y := CallOffset(t, x.c);
        if !y.ok then Fail(c) else
          var e := Encoding(t, y.c);
          if e.ok then e else e.Undo(c)
  }

  /** Two characters and a name: GV and GR. */
  function GuardName(t: CString, c: Core, b: char): (r: Res)
    requires Good(t, c) && b != '\0'
    ensures Moves(t, c, r) && (!r.ok ==> r.c == c)
    decreases |t| - c.pos, 0
  {
    if !Is2(t, c, 'G', b) then Fail(c) else
      var n := Name(t, c.Skip(2));
      if n.ok then n else n.Undo(c)
  }

  /** T, then a call offset and an encoding; with a letter of "cls" in between unless empty. */
  function Thunk(t: CString, c: Core, cls: string): (r: Res)
    requires Good(t, c)
    ensures Moves(t, c, r) && (!r.ok ==> r.c == c)
    decreases |t| - c.pos, 0
  {
    if !Is(t, c, 'T') || (cls != "" && !IsAny(t, c.Skip(1), cls)) then Fail(c) else
      var x := CallOffset(t, c.Skip(if cls == "" then 1 else 2));
      if !x.ok then Fail(c) else
        var e := Encoding(t, x.c);
        if e.ok then e else e.Undo(c)
  }

  /** number _ */
  function VtableOffset(t: CString, c: Core): (v: NumRes)
    requires Good(t, c)
    ensures Good(t, v.c) && v.c == c.(pos := v.c.pos) && c.pos <= v.c.pos && (v.ok ==> c.pos < v.c.pos)
  {
    var n := Number(t, c);
    if n.ok && Is(t, n.c, '_') then n.(c := n.c.Skip(1)) else n.(ok := false)
  }

  /** TC type number _ type: the second type is not printed. */
  function ConstructionVtable(t: CString, c: Core): (r: Res)
    requires Good(t, c)
    ensures Moves(t, c, r) && (!r.ok ==> r.c == c)
    decreases |t| - c.pos, 0
  {
    if !Is2(t, c, 'T', 'C') then Fail(c) else
      var y := Type(t, c.Skip(2));
      if !y.ok then y.Undo(c) else
        var n := VtableOffset(t, y.c);
        if !n.ok then y.Undo(c) else
          var w := y.Then(Type(t, n.c).Mute());
          if w.ok then w else w.Undo(c)
  }

  function GuardEncoding(t: CString, c: Core): (r: Res)
    requires Good(t, c)
    ensures Moves(t, c, r) && (!r.ok ==> r.c == c)
    decreases |t| - c.pos, 0
  {
    if !Is2(t, c, 'G', 'A') then Fail(c) else
      var e := Encoding(t, c.Skip(2));
      if e.ok then e else e.Undo(c)
  }

  function SpecialName(t: CString, c: Core): (r: Res)
    requires Good(t, c)
    ensures Moves(t, c, r) && (!r.ok ==> r.c == c)
    decreases |t| - c.pos, 1
  {
    var a1 := SpecialType(t, c, "VTIS");
    if a1.ok then a1 else
    var a2 := a1.Then(CovariantThunk(t, c));
    if a2.ok then a2 else
    var a3 := a2.Then(GuardName(t, c, 'V'));
    if a3.ok then a3 else
    var a4 := a3.Then(Thunk(t, c, ""));
    if a4.ok then a4 else
    var a5 := a4.Then(ConstructionVtable(t, c));
    if a5.ok then a5 else
    var a6 := a5.Then(SpecialType(t, c, "FJ"));
    if a6.ok then a6 else
    var a7 := a6.Then(GuardName(t, c, 'R'));
    if a7.ok then a7 else
    var a8 := a7.Then(GuardEncoding(t, c));
    if a8.ok then a8 else a8.Then(Thunk(t, c, "hv"))
  }

  // ---------------------------------------------------------------- types

  function QualifiedType(t: CString, c: Core): (r: Res)
    requires Good(t, c)
    ensures Moves(t, c, r) && (!r.ok ==> r.c == c)
    decreases |t| - c.pos, 0
  {
    var q := CVQualifiers(t, c);
    if !q.ok then Fail(c) else
      var y := Type(t, q.c);
      if y.ok then y else y.Undo(c)
  }

  function PointerType(t: CString, c: Core): (r: Res)
    requires Good(t, c)
    ensures Moves(t, c, r) && (!r.ok ==> r.c == c)
    decreases |t| - c.pos, 0
  {
    if !IsAny(t, c, "OPRCG") then Fail(c) else
      var y := Type(t, c.Skip(1));
      if y.ok then y else y.Undo(c)
  }

  function PackExpansion(t: CString, c: Core): (r: Res)
    requires Good(t, c)
    ensures Moves(t, c, r) && (!r.ok ==> r.c == c)
    decreases |t| - c.pos, 0
  {
    if !Is2(t, c, 'D', 'p') then Fail(c) else
      var y := Type(t, c.Skip(2));
      if y.ok then y else y.Undo(c)
  }

  function DeclType(t: CString, c: Core): (r: Res)
    requires Good(t, c)
    ensures Moves(t, c, r) && (!r.ok ==> r.c == c)
    decreases |t| - c.pos, 0
  {
    if !(Is(t, c, 'D') && IsAny(t, c.Skip(1), "tT")) then Fail(c) else
      var e := Expression(t, c.Skip(2));
      if e.ok && Is(t, e.c, 'E') then e.Eat(1) else e.Undo(c)
  }

  function VendorType(t: CString, c: Core): (r: Res)
    requires Good(t, c)
    ensures Moves(t, c, r) && (!r.ok ==> r.c == c)
    decreases |t| - c.pos, 0
  {
    if !Is(t, c, 'U') then Fail(c) else
      var s := SourceName(t, c.Skip(1));
      var y := if s.ok then s.Then(Type(t, s.c)) else s;
      if y.ok then y else y.Undo(c)
  }

  /** The alternatives of a type that keep what a failing one leaves in the budgets. */
  function PlainType(t: CString, c: Core): (r: Res)
    requires Good(t, c)
    ensures Moves(t, c, r)
    decreases |t| - c.pos, 6
  {
    var a1 := BuiltinType(t, c);
    if a1.ok then a1 else
    var a2 := a1.Then(FunctionType(t, a1.c));
    if a2.ok then a2 else
    var a3 := a2.Then(Name(t, a2.c));
    if a3.ok then a3 else
    var a4 := a3.Then(ArrayType(t, a3.c));
    if a4.ok then a4 else
    var a5 := a4.Then(PointerToMemberType(t, a4.c));
    if a5.ok then a5 else a5.Then(Substitution(t, a5.c))
  }

  function Type(t: CString, c: Core): (r: Res)
    requires Good(t, c)
    ensures Moves(t, c, r) && (!r.ok ==> r.c == c)
    decreases |t| - c.pos, 7
  {
    var a1 := QualifiedType(t, c);
    if a1.ok then a1 else
    var a2 := a1.Then(PointerType(t, c));
    if a2.ok then a2 else
    var a3 := a2.Then(PackExpansion(t, c));
    if a3.ok then a3 else
    var a4 := a3.Then(DeclType(t, c));
    if a4.ok then a4 else
    var a5 := a4.Then(VendorType(t, c));
    if a5.ok then a5 else
    var p := PlainType(t, c);
    if p.ok then a5.Then(p) else
    var u := p.Then(TemplateTemplateParam(t, p.c));
    var v := if u.ok then u.Then(TemplateArgs(t, u.c)) else u;
    if v.ok then a5.Then(v) else a5.Then(v.Undo(c)).Then(TemplateParam(t, c))
  }

  function FunctionType(t: CString, c: Core): (r: Res)
    requires Good(t, c)
    ensures Moves(t, c, r) && (!r.ok ==> r.c == c)
    decreases |t| - c.pos, 0
  {
    if !Is(t, c, 'F') then Fail(c) else
      var y := if Is(t, c.Skip(1), 'Y') then c.Skip(2) else c.Skip(1);
      var b := BareFunctionType(t, y);
      if b.ok && Is(t, b.c, 'E') then b.Eat(1) else b.Undo(c)
  }

  function TypeStar(t: CString, c: Core): (r: Res)
    requires Good(t, c)
    ensures Stays(t, c, r) && Flat(r.tr) && r.ok
    decreases |t| - c.pos, 8
  {
    var a := Type(t, c);
    if a.ok then a.Then(TypeStar(t, a.c)) else Res(true, a.c, a.tr)
  }

  function TypePlus(t: CString, c: Core): (r: Res)
    requires Good(t, c)
    ensures Moves(t, c, r)
    decreases |t| - c.pos, 8
  {
    var a := Type(t, c);
    if a.ok then a.Then(TypeStar(t, a.c)) else a
  }

  function BareFunctionType(t: CString, c: Core): (r: Res)
    requires Good(t, c)
    ensures Moves(t, c, r) && (!r.ok ==> r.c == c)
    decreases |t| - c.pos, 9
  {
    var s := TypePlus(t, c);
    if s.ok then s.Mute().Do(Emit("()")) else s.Mute().Undo(c)
  }

  /** A, a number, _, a type. */
  function BoundedArray(t: CString, c: Core): (r: Res)
    requires Good(t, c)
    ensures Moves(t, c, r) && (!r.ok ==> r.c == c)
    decreases |t| - c.pos, 0
  {
    if !Is(t, c, 'A') then Fail(c) else
      var n := Number(t, c.Skip(1));
      if !(n.ok && Is(t, n.c, '_')) then Fail(c) else
        var y := Type(t, n.c.Skip(1));
        if y.ok then y else y.Undo(c)
  }

  function ArrayType(t: CString, c: Core): (r: Res)
    requires Good(t, c)
    ensures Moves(t, c, r) && (!r.ok ==> r.c == c)
    decreases |t| - c.pos, 1
  {
    var a := BoundedArray(t, c);
    if a.ok || !Is(t, c, 'A') then a else
      var e := Expression(t, c.Skip(1));
      if !Is(t, e.c, '_') then a.Then(e.Undo(c)) else
        var y := e.Then(Type(t, e.c.Skip(1)));
        if y.ok then a.Then(y) else a.Then(y.Undo(c))
  }

  function PointerToMemberType(t: CString, c: Core): (r: Res)
    requires Good(t, c)
    ensures Moves(t, c, r) && (!r.ok ==> r.c == c)
    decreases |t| - c.pos, 0
  {
    if !Is(t, c, 'M') then Fail(c) else
      var a := Type(t, c.Skip(1));
      var b := if a.ok then a.Then(Type(t, a.c)) else a;
      if b.ok then b else b.Undo(c)
  }

  // ---------------------------------------------------------------- template arguments, expressions

  function TemplateArgStar(t: CString, c: Core): (r: Res)
    requires Good(t, c)
    ensures Stays(t, c, r) && Flat(r.tr) && r.ok
    decreases |t| - c.pos, 9
  {
    var a := TemplateArg(t, c);
    if a.ok then a.Then(TemplateArgStar(t, a.c)) else Res(true, a.c, a.tr)
  }

  function TemplateArgPlus(t: CString, c: Core): (r: Res)
    requires Good(t, c)
    ensures Moves(t, c, r)
    decreases |t| - c.pos, 9
  {
    var a := TemplateArg(t, c);
    if a.ok then a.Then(TemplateArgStar(t, a.c)) else a
  }

  function TemplateArgs(t: CString, c: Core): (r: Res)
    requires Good(t, c)
    ensures Moves(t, c, r) && (!r.ok ==> r.c == c)
    decreases |t| - c.pos, 0
  {
    if !Is(t, c, 'I') then Fail(c) else
      var s := TemplateArgPlus(t, c.Skip(1));
      if s.ok && Is(t, s.c, 'E') then s.Mute().Do(Emit("<>")).Eat(1) else s.Mute().Undo(c)
  }

  /** The argument counter, entered at "c", is stepped back on success and left up on failure. */
  function TemplateArg(t: CString, c: Core): (r: Res)
    requires Good(t, c)
    ensures Moves(t, c, r)
    ensures !r.ok ==> r.c == if c.arg > MAX_LEVELS then c else c.(arg := c.arg + 1)
    decreases |t| - c.pos, 8
  {
    if c.arg > MAX_LEVELS then Fail(c) else
      var c1 := c.(arg := c.arg + 1);
      var a := ArgPack(t, c1);
      if a.ok then LeaveArg(a) else
      var y := a.Then(Type(t, c1));
      if y.ok then LeaveArg(y) else
      var p := y.Then(ExprPrimary(t, y.c));
      if p.ok then LeaveArg(p) else
      var x := p.Then(ArgExpression(t, c1));
      if x.ok then LeaveArg(x) else x
  }

  function LeaveArg(r: Res): Res
    requires r.c.arg > 0
  {
    r.(c := r.c.(arg := r.c.arg - 1))
  }

  function ArgPack(t: CString, c: Core): (r: Res)
    requires Good(t, c)
    ensures Moves(t, c, r) && (!r.ok ==> r.c == c)
    decreases |t| - c.pos, 0
  {
    if !(Is(t, c, 'I') || Is(t, c, 'J')) then Fail(c) else
      var s := TemplateArgStar(t, c.Skip(1));
      if Is(t, s.c, 'E') then s.Eat(1) else s.Undo(c)
  }

  function ArgExpression(t: CString, c: Core): (r: Res)
    requires Good(t, c)
    ensures Moves(t, c, r) && (!r.ok ==> r.c == c)
    decreases |t| - c.pos, 0
  {
    if !Is(t, c, 'X') then Fail(c) else
      var e := Expression(t, c.Skip(1));
      if e.ok && Is(t, e.c, 'E') then e.Eat(1) else e.Undo(c)
  }

  function LeaveExpr(r: Res): Res
    requires r.c.expr > 0
  {
    r.(c := r.c.(expr := r.c.expr - 1))
  }

  /** "n" expressions in a row. */
  function Operands(t: CString, c: Core, n: nat): (r: Res)
    requires Good(t, c)
    ensures Stays(t, c, r) && Flat(r.tr)
    decreases |t| - c.pos, 5 + n
  {
    if n == 0 then Pass(c) else
      var a := Operands(t, c, n - 1);
      if a.ok then a.Then(Expression(t, a.c)) else a
  }

  /** An operator and "n" operands. */
  function Operation(t: CString, c: Core, n: nat): (r: Res)
    requires Good(t, c)
    ensures Moves(t, c, r) && (!r.ok ==> r.c == c)
    decreases |t| - c.pos, 2
  {
    var o := OperatorName(t, c);
    var r := if o.ok then o.Then(Operands(t, o.c, n)) else o;
    if r.ok then r else r.Undo(c)
  }

  /** st type: the one alternative that does not step the counter back. */
  function SizeofType(t: CString, c: Core): (r: Res)
    requires Good(t, c)
    ensures Moves(t, c, r) && (!r.ok ==> r.c == c)
    decreases |t| - c.pos, 0
  {
    if !Is2(t, c, 's', 't') then Fail(c) else
      var y := Type(t, c.Skip(2));
      if y.ok then y else y.Undo(c)
  }

  /** sr type unqualified-name, with template arguments if "args". */
  function ScopeName(t: CString, c: Core, args: bool): (r: Res)
    requires Good(t, c)
    ensures Moves(t, c, r) && (!r.ok ==> r.c == c)
    decreases |t| - c.pos, 0
  {
    if !Is2(t, c, 's', 'r') then Fail(c) else
      var y := Type(t, c.Skip(2));
      var n := if y.ok then y.Then(UnqualifiedName(t, y.c)) else y;
      var r := if n.ok && args then n.Then(TemplateArgs(t, n.c)) else n;
      if r.ok then r else r.Undo(c)
  }

  /** An operator with three, two or one operands, the greediest first. */
  function Operations(t: CString, c: Core): (r: Res)
    requires Good(t, c)
    ensures Moves(t, c, r) && (!r.ok ==> r.c == c)
    decreases |t| - c.pos, 3
  {
    var a3 := Operation(t, c, 3);
    if a3.ok then a3 else
    var a2 := a3.Then(Operation(t, c, 2));
    if a2.ok then a2 else a2.Then(Operation(t, c, 1))
  }

  /** A scoped name with template arguments or, less greedily, without. */
  function UnresolvedName(t: CString, c: Core): (r: Res)
    requires Good(t, c)
    ensures Moves(t, c, r) && (!r.ok ==> r.c == c)
    decreases |t| - c.pos, 1
  {
    var a := ScopeName(t, c, true);
    if a.ok then a else a.Then(ScopeName(t, c, false))
  }

  function Expression(t: CString, c: Core): (r: Res)
    requires Good(t, c)
    ensures Moves(t, c, r)
    ensures !r.ok ==> r.c == if c.expr > MAX_LEVELS then c else c.(expr := c.expr + 1)
    decreases |t| - c.pos, 4
  {
    var p := TemplateParam(t, c);
    if p.ok then p else
    var q := p.Then(ExprPrimary(t, p.c));
    if q.ok || c.expr > MAX_LEVELS then q else
    var c1 := c.(expr := c.expr + 1);
    var o := q.Then(Operations(t, c1));
    if o.ok then LeaveExpr(o) else
    var s := o.Then(SizeofType(t, c1));
    if s.ok then s else
    var n := s.Then(UnresolvedName(t, c1));
    if n.ok then LeaveExpr(n) else n
  }

  /** The value of a literal: a number, or digits of a float. */
  function LiteralValue(t: CString, c: Core, float: bool): (v: NumRes)
    requires Good(t, c)
    ensures Good(t, v.c) && v.c == c.(pos := v.c.pos) && c.pos <= v.c.pos && (v.ok ==> c.pos < v.c.pos)
  {
    if !float then Number(t, c) else
      var q := RunEnd(t, c.pos, IsLowerHex);
      NumRes(q > c.pos, c.(pos := q), 0)
  }

  /** L type, then the value, then E. */
  function Literal(t: CString, c: Core, float: bool): (r: Res)
    requires Good(t, c)
    ensures Moves(t, c, r) && (!r.ok ==> r.c == c)
    decreases |t| - c.pos, 0
  {
    if !Is(t, c, 'L') then Fail(c) else
      var y := Type(t, c.Skip(1));
      if !y.ok then y.Undo(c) else
        var v := LiteralValue(t, y.c, float);
        if v.ok && Is(t, v.c, 'E') then Res(true, v.c.Skip(1), y.tr) else y.Undo(c)
  }

  function LiteralName(t: CString, c: Core): (r: Res)
    requires Good(t, c)
    ensures Moves(t, c, r) && (!r.ok ==> r.c == c)
    decreases |t| - c.pos, 0
  {
    if !Is(t, c, 'L') then Fail(c) else
      var m := MangledName(t, c.Skip(1));
      if m.ok && Is(t, m.c, 'E') then m.Eat(1) else m.Undo(c)
  }

  function LiteralEncoding(t: CString, c: Core): (r: Res)
    requires Good(t, c)
    ensures Moves(t, c, r) && (!r.ok ==> r.c == c)
    decreases |t| - c.pos, 0
  {
    if !Is2(t, c, 'L', 'Z') then Fail(c) else
      var e := Encoding(t, c.Skip(2));
      if e.ok && Is(t, e.c, 'E') then e.Eat(1) else e.Undo(c)
  }

  function ExprPrimary(t: CString, c: Core): (r: Res)
    requires Good(t, c)
    ensures Moves(t, c, r) && (!r.ok ==> r.c == c)
    decreases |t| - c.pos, 1
  {
    var a1 := Literal(t, c, false);
    if a1.ok then a1 else
    var a2 := a1.Then(Literal(t, c, true));
    if a2.ok then a2 else
    var a3 := a2.Then(LiteralName(t, c));
    if a3.ok then a3 else a3.Then(LiteralEncoding(t, c))
  }

  // ---------------------------------------------------------------- local names

  function LeaveLocal(r: Res): Res
    requires r.c.local > 0
  {
    r.(c := r.c.(local := r.c.local - 1))
  }

  /** Z encoding E name [discriminator]. */
  function LocalEntity(t: CString, c: Core): (r: Res)
    requires Good(t, c)
    ensures Moves(t, c, r) && (!r.ok ==> r.c == c)
    decreases |t| - c.pos, 0
  {
    if !Is(t, c, 'Z') then Fail(c) else
      var e := Encoding(t, c.Skip(1));
      if !(e.ok && Is(t, e.c, 'E')) then e.Undo(c) else
        var n := e.Do(Emit("::")).Then(Name(t, e.c.Skip(1)));
        if n.ok then Res(true, Discriminator(t, n.c).c, n.tr) else n.Undo(c)
  }

  /** Z encoding Es [discriminator]. */
  function LocalString(t: CString, c: Core): (r: Res)
    requires Good(t, c)
    ensures Moves(t, c, r) && (!r.ok ==> r.c == c)
    decreases |t| - c.pos, 0
  {
    if !Is(t, c, 'Z') then Fail(c) else
      var e := Encoding(t, c.Skip(1));
      if e.ok && Is2(t, e.c, 'E', 's') then Res(true, Discriminator(t, e.c.Skip(2)).c, e.tr) else e.Undo(c)
  }

  function LocalName(t: CString, c: Core): (r: Res)
    requires Good(t, c)
    ensures Moves(t, c, r)
    ensures !r.ok ==> r.c == if c.local > MAX_LEVELS then c else c.(local := c.local + 1)
    decreases |t| - c.pos, 1
  {
    if c.local > MAX_LEVELS then Fail(c) else
      var c1 := c.(local := c.local + 1);
      var a := LocalEntity(t, c1);
      if a.ok then LeaveLocal(a) else
      var b := a.Then(LocalString(t, c1));
      if b.ok then LeaveLocal(b) else b
  }

  // ---------------------------------------------------------------- the whole name

  /** One ".<letters>.<digits>" group: where it ends, or None. */
  function CloneGroup(t: CString, p: nat): (q: nat)
    requires p < |t|
    ensures p <= q < |t|
  {
    if !(t[p] == '.' && IsAlpha(t[p + 1])) then p else
      var m := RunEnd(t, p + 2, IsAlpha);
      if !(t[m] == '.' && IsDigit(t[m + 1])) then p else RunEnd(t, m + 2, IsDigit)
  }

  /** The rest of the text is a sequence of such groups. */
  function CloneSuffix(t: CString, p: nat): bool
    requires p < |t|
    decreases |t| - p
  {
    t[p] == '\0' || (CloneGroup(t, p) > p && CloneSuffix(t, CloneGroup(t, p)))
  }

  const ENTRY := Core(0, 0, 0, 0)

  function TopLevel(t: CString): (r: Res)
    ensures Good(t, r.c) && Clean(r.tr) && Flat(r.tr)
  {
    var m := MangledName(t, ENTRY);
    if !m.ok || Is(t, m.c, '\0') || CloneSuffix(t, m.c.pos) then m else
    if Is(t, m.c, '@') then m.Then(Res(true, m.c, Emit(t[m.c.pos..|t| - 1]))) else
    m.(ok := false)
  }
}

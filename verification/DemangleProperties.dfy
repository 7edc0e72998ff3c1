/** Results about whole names, and about the places where the parser leaves its own convention. */
module DemangleProperties {
  import opened CText
  import opened Tape
  import opened Output
  import opened Recogniser
  import opened Faithful

  // ---------------------------------------------------------------- what is printed

  /** Whatever is accepted, the printed text is a C string's contents: no terminator inside. */
  lemma PrintedTextHasNoTerminator(t: CString, bytes: string, behind: nat -> char)
    ensures '\0' !in Exec(TopLevel(t).tr, Start(bytes, behind)).text
  {
    hide TopLevel, Exec;
    CleanRun(TopLevel(t).tr, Start(bytes, behind));
  }

  /** A name whose encoding is a name with a signature. */
  predicate IsFunction(t: CString) {
    Is2(t, ENTRY, '_', 'Z') &&
    var n := Name(t, ENTRY.Skip(2));
    n.ok && BareFunctionType(t, n.c).ok
  }

  /** Functions end in "()", so their text is terminated. */
  lemma FunctionsAreTerminated(t: CString, bytes: string, behind: nat -> char)
    requires IsFunction(t)
    ensures var o := Exec(TopLevel(t).tr, Start(bytes, behind));
            TopLevel(t).ok ==> o.sealed && (!o.tape.overflowed ==> Ended(o.tape))
  {
    hide Name, TypePlus, Tape.Print;
    var n := Name(t, ENTRY.Skip(2));
    var b := BareFunctionType(t, n.c);
    var o := Exec(n.tr, Start(bytes, behind));
    AppendKept(n.tr, Start(bytes, behind));
    var s := TypePlus(t, n.c);
    assert b == s.Mute().Do(Emit("()"));
    assert Exec(b.tr, o) == Exec(s.Mute().tr, o).Print("()");
    assert MangledName(t, ENTRY) == n.Then(b);
    AppendKept(b.tr, o);
    OverflowIsSeen(TopLevel(t).tr, bytes, behind);
  }

  // ---------------------------------------------------------------- levels

  /** "st type" leaves the expression level raised: the step back stands behind the return. */
  lemma SizeofLeavesLevel(t: CString, c: Core)
    requires Good(t, c) && c.expr <= MAX_LEVELS && !TemplateParam(t, c).ok && !ExprPrimary(t, c).ok
    requires var c1 := c.(expr := c.expr + 1); !Operations(t, c1).ok && SizeofType(t, c1).ok
    ensures var e, s := Expression(t, c), SizeofType(t, c.(expr := c.expr + 1));
            e.ok && e.c == s.c && e.c.expr >= c.expr + 1
  {
    hide TemplateParam, ExprPrimary, Operations, SizeofType, Exec, Clean, Flat, Frozen;
  }

  /** "sti": the operator "st" with an operand is tried first, but "i" is no expression. */
  predicate IsSizeofInt(t: CString) { |t| == 4 && t[0] == 's' && t[1] == 't' && t[2] == 'i' && t[3] == '\0' }

  lemma NoOperand(t: CString, c: Core)
    requires IsSizeofInt(t) && Good(t, c) && c.pos == 2
    ensures !Expression(t, c).ok
  {
    hide TemplateParam, ExprPrimary, Operations, SizeofType, UnresolvedName, Expression;
    NoPrimary(t, c);
    if c.expr <= MAX_LEVELS { NoCompound(t, c.(expr := c.expr + 1)); }
    ExpressionFails(t, c);
  }

  lemma ExpressionFails(t: CString, c: Core)
    requires Good(t, c) && !TemplateParam(t, c).ok && !ExprPrimary(t, c).ok
    requires c.expr <= MAX_LEVELS ==>
               var c1 := c.(expr := c.expr + 1);
               !Operations(t, c1).ok && !SizeofType(t, c1).ok && !UnresolvedName(t, c1).ok
    ensures !Expression(t, c).ok
  {
    hide TemplateParam, ExprPrimary, Operations, SizeofType, UnresolvedName, Exec, Clean, Flat, Frozen;
  }

  lemma NoPrimary(t: CString, c: Core)
    requires Good(t, c) && t[c.pos] != 'T' && t[c.pos] != 'L'
    ensures !TemplateParam(t, c).ok && !ExprPrimary(t, c).ok
  {
  }

  lemma NoCompound(t: CString, c: Core)
    requires IsSizeofInt(t) && Good(t, c) && c.pos == 2
    ensures !Operations(t, c).ok && !SizeofType(t, c).ok && !UnresolvedName(t, c).ok
  {
    hide Operands;
    assert !HasChars(t, c.pos, 2) && !OperatorName(t, c).ok;
    assert !Operation(t, c, 3).ok && !Operation(t, c, 2).ok && !Operation(t, c, 1).ok;
  }

  lemma {:induction false} NoOperands(t: CString, c: Core, n: nat)
    requires IsSizeofInt(t) && Good(t, c) && c.pos == 2 && n >= 1
    ensures !Operands(t, c, n).ok
  {
    hide Expression;
    if n > 1 { NoOperands(t, c, n - 1); } else { NoOperand(t, c); }
  }

  lemma NoOperation(t: CString, c: Core, n: nat)
    requires IsSizeofInt(t) && Good(t, c) && c.pos == 0 && n >= 1
    ensures !Operation(t, c, n).ok
  {
    hide Operands, Lookup, SourceName;
    var o := OperatorName(t, c);
    assert !Conversion(t, c).ok && !VendorOperator(t, c).ok;
    if o.ok { NoOperands(t, o.c, n); }
  }

  lemma SizeofInt(t: CString, c: Core)
    requires IsSizeofInt(t) && Good(t, c) && c.pos == 0
    ensures SizeofType(t, c).ok && SizeofType(t, c).c == c.Skip(3)
  {
    hide Type, Lookup;
    IntType(t, c.Skip(2));
  }

  lemma IntType(t: CString, c: Core)
    requires IsSizeofInt(t) && Good(t, c) && c.pos == 2
    ensures Type(t, c).ok && Type(t, c).c == c.Skip(1)
  {
    hide Lookup, SourceName, Expression, Exec, Clean, Flat, Frozen;
    assert BUILTINS[8].first == 'i';
  }

  /** On that input the level stays raised. */
  lemma RaisedLevel(t: CString)
    requires t == "sti\0"
    ensures Expression(t, ENTRY).ok && Expression(t, ENTRY).c == Core(3, 0, 1, 0)
  {
    hide Operation, SizeofType, Operations;
    var c1 := ENTRY.(expr := 1);
    NoOperations(t, c1);
    SizeofInt(t, c1);
    SizeofLeavesLevel(t, ENTRY);
  }

  lemma NoOperations(t: CString, c: Core)
    requires IsSizeofInt(t) && Good(t, c) && c.pos == 0
    ensures !Operations(t, c).ok
  {
    hide Operation;
    NoOperation(t, c, 3);
    NoOperation(t, c, 2);
    NoOperation(t, c, 1);
  }

  // ---------------------------------------------------------------- failures that keep what they read

  /** A number that fails is put back unless it began with its sign. */
  lemma NumberPutsBack(t: CString, c: Core)
    requires Good(t, c) && !Number(t, c).ok
    ensures Number(t, c).c == c <==> !Is(t, c, 'n')
  {
  }

  lemma AbiTagPutsBack(t: CString, c: Core)
    requires Good(t, c) && !AbiTag(t, c).ok
    ensures AbiTag(t, c).c == c <==> !Is(t, c, 'B')
  {
  }

  lemma MangledNamePutsBack(t: CString, c: Core)
    requires Good(t, c) && !MangledName(t, c).ok
    ensures MangledName(t, c).c.pos == c.pos <==> !Is2(t, c, '_', 'Z')
  {
  }

  /** Where the tags end by the grammar: after the last complete "B <source-name>". */
  function TagsEnd(t: CString, c: Core): (p: nat)
    requires Good(t, c)
    ensures c.pos <= p < |t|
    decreases |t| - c.pos
  {
    if AbiTag(t, c).ok then TagsEnd(t, AbiTag(t, c).c) else c.pos
  }

  /** The tag loop ends where the grammar does just if no 'B' follows; otherwise it swallows it. */
  lemma {:induction false} TagLoopSwallowsB(t: CString, c: Core)
    requires Good(t, c)
    ensures var p := TagsEnd(t, c); AbiTagStar(t, c).c == c.(pos := if t[p] == 'B' then p + 1 else p)
    decreases |t| - c.pos
  {
    if AbiTag(t, c).ok {
      TagLoopSwallowsB(t, AbiTag(t, c).c);
    }
  }

  lemma OneCharName(t: CString, c: Core)
    requires Good(t, c) && c.pos + 2 < |t| && t[c.pos] == '1' && !IsDigit(t[c.pos + 1])
    ensures SourceName(t, c).ok && SourceName(t, c).c == c.Skip(2)
  {
    assert RunEnd(t, c.pos, IsDigit) == c.pos + 1;
    assert t[c.pos..c.pos + 1] == "1" && Decimal("1") == 1;
  }

  lemma NoName(t: CString, c: Core)
    requires Good(t, c) && !IsDigit(t[c.pos]) && t[c.pos] != 'n'
    ensures !SourceName(t, c).ok
  {
    assert RunEnd(t, c.pos, IsDigit) == c.pos;
  }

  /** For instance, of "B1aBx" the tags take "B1aB". */
  lemma DanglingTag()
    ensures var t := "B1aBx\0"; AbiTags(t, ENTRY).ok && AbiTags(t, ENTRY).c.pos == 4 && TagsEnd(t, ENTRY) == 3
  {
    hide SourceName, Decimal, RunEnd;
    var t: CString := "B1aBx\0";
    OneCharName(t, ENTRY.Skip(1));
    NoName(t, ENTRY.Skip(4));
    TagLoopSwallowsB(t, ENTRY.Skip(3));
  }

  // ---------------------------------------------------------------- clone suffixes

  /** "." letters "." digits, the second dot at "m". */
  predicate IsGroup(g: string, m: nat) {
    && 2 <= m < |g| - 1 && g[0] == '.' && g[m] == '.'
    && (forall i :: 1 <= i < m ==> IsAlpha(g[i]))
    && (forall i :: m < i < |g| ==> IsDigit(g[i]))
  }

  function Concat(gs: seq<string>): string {
    if gs == [] then "" else gs[0] + Concat(gs[1..])
  }

  ghost predicate AreGroups(gs: seq<string>) {
    gs == [] || ((exists m :: IsGroup(gs[0], m)) && AreGroups(gs[1..]))
  }

  /** Where a run of letters or digits is known to end. */
  lemma {:induction false} RunEndsAt(t: CString, p: nat, q: nat, cls: char -> bool)
    requires p <= q < |t| && !cls('\0') && !cls(t[q])
    requires forall i :: p <= i < q ==> cls(t[i])
    ensures RunEnd(t, p, cls) == q
    decreases q - p
  {
    if p < q { RunEndsAt(t, p + 1, q, cls); }
  }

  /** A group the scanner passes over is one, ... */
  lemma GroupFound(t: CString, p: nat) returns (m: nat)
    requires p < |t| && CloneGroup(t, p) > p
    ensures IsGroup(t[p..CloneGroup(t, p)], m)
  {
    m := RunEnd(t, p + 2, IsAlpha) - p;
  }

  /** ... and one that nothing continues is passed over. */
  lemma GroupPassed(t: CString, p: nat, q: nat, m: nat)
    requires p <= q < |t| && IsGroup(t[p..q], m) && (t[q] == '.' || t[q] == '\0')
    ensures CloneGroup(t, p) == q
  {
    var g := t[p..q];
    assert t[p] == g[0] && t[p + 1] == g[1] && t[p + m] == g[m] && t[p + m + 1] == g[m + 1];
    forall i | p + 2 <= i < p + m ensures IsAlpha(t[i]) { assert g[i - p] == t[i]; }
    forall i | p + m + 2 <= i < q ensures IsDigit(t[i]) { assert g[i - p] == t[i]; }
    RunEndsAt(t, p + 2, p + m, IsAlpha);
    RunEndsAt(t, p + m + 2, q, IsDigit);
  }

  /** A clone suffix is exactly a sequence of groups. */
  lemma {:induction false} CloneSuffixIsGroups(t: CString, p: nat) returns (gs: seq<string>)
    requires p < |t| && CloneSuffix(t, p)
    ensures AreGroups(gs) && Concat(gs) == t[p..|t| - 1]
    decreases |t| - p
  {
    if t[p] == '\0' {
      gs := [];
    } else {
      var q := CloneGroup(t, p);
      var m := GroupFound(t, p);
      var rest := CloneSuffixIsGroups(t, q);
      gs := [t[p..q]] + rest;
      assert gs[0] == t[p..q] && gs[1..] == rest;
      assert t[p..|t| - 1] == t[p..q] + t[q..|t| - 1];
    }
  }

  lemma {:induction false} GroupsAreCloneSuffix(t: CString, p: nat, gs: seq<string>)
    requires p < |t| && AreGroups(gs) && Concat(gs) == t[p..|t| - 1]
    ensures CloneSuffix(t, p)
    decreases |gs|
  {
    if gs != [] {
      var m :| IsGroup(gs[0], m);
      var q, tail := p + |gs[0]|, t[p..|t| - 1];
      assert tail[..|gs[0]|] == gs[0] && tail[|gs[0]|..] == Concat(gs[1..]);
      assert t[p..q] == tail[..|gs[0]|] && t[q..|t| - 1] == tail[|gs[0]|..];
      if gs[1..] != [] {
        var n :| IsGroup(gs[1], n);
        assert t[q] == t[q..|t| - 1][0] == gs[1..][0][0];
      }
      GroupPassed(t, p, q, m);
      GroupsAreCloneSuffix(t, q, gs[1..]);
    }
  }

  /** The scanner's test is the declared form of a clone suffix. */
  lemma CloneSuffixMeans(t: CString, p: nat)
    requires p < |t|
    ensures CloneSuffix(t, p) <==> exists gs :: AreGroups(gs) && Concat(gs) == t[p..|t| - 1]
  {
    if CloneSuffix(t, p) {
      var gs := CloneSuffixIsGroups(t, p);
    }
    if gs :| AreGroups(gs) && Concat(gs) == t[p..|t| - 1] {
      GroupsAreCloneSuffix(t, p, gs);
    }
  }
}

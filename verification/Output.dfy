/** What the demangler prints: an ideal text with room for every character, and the buffer it really has. */
module Output {
  import opened CText
  import opened Tape

  /** The actions of a parse, in order; each nonterminal returns one such trace. */
  datatype Trace =
    | Nothing
    | Emit(str: string)           // append a text
    | EmitPrev                    // append the last remembered name
    | Separator                   // "::" inside a nested name
    | Retracted(body: Trace)      // a separator, attempts that fail, and the separator taken back
    | Deeper                      // one more component of a nested name
    | Both(first: Trace, second: Trace)
    | Attempt(body: Trace)        // run, then put the saved state back
    | Muted(body: Trace)          // run with append off
    | Nested(body: Trace)         // run as a nested name, then leave it

  const SHORT_MAX := 32767

  /** text: the ideal text; prev: the remembered name; high: its greatest length so far, abandoned attempts
      included; writes: number of buffer updates; sealed: a '\0' follows text; plain: the length of text
      without the spaces that keep '<' apart; tape: the buffer. */
  datatype Out = Out(text: string, prev: string, nest: int, append: bool,
                     high: nat, writes: nat, sealed: bool, plain: nat, tape: Tape)
  {
    function Print(str: string): (o: Out)
      ensures high <= o.high && writes <= o.writes
    {
      if !append || str == "" then this else
        var gap := if str[0] == '<' && text != "" && text[|text| - 1] == '<' then " " else "";
        var longer := text + gap + str;
        this.(text := longer,
              prev := if StartsName(str) then str else prev,
              high := if high < |longer| then |longer| else high,
              writes := writes + 1,
              sealed := true,
              plain := plain + |str|,
              tape := tape.Print(Bytes(str), |str|))
    }

    /** The remembered name again, read from where it lies in the buffer. */
    function PrintPrev(): (o: Out)
      ensures high <= o.high && writes <= o.writes
    {
      Print(prev).(tape := if append && tape.len > 0 then tape.Print(Buffer(tape.name), tape.len) else tape)
    }

    function Separate(): (o: Out)
      ensures high <= o.high && writes <= o.writes
    {
      if nest >= 1 then Print("::") else this
    }

    function Cancel(): (o: Out)
      ensures high <= o.high && writes <= o.writes
    {
      if nest >= 1 && append
      then this.(text := if |text| >= 2 then text[..|text| - 2] else text, writes := writes + 1,
                 sealed := sealed || |text| >= 2, plain := if plain >= 2 then plain - 2 else 0, tape := tape.Cancel())
      else this
    }

    /** nest_level is a short: its increment wraps. */
    function Descend(): Out {
      if nest <= -1 then this
      else this.(nest := if nest == SHORT_MAX then -SHORT_MAX - 1 else nest + 1)
    }

    /** "saved" put back; the buffer's bytes are not rolled back. */
    function Rollback(saved: Out): Out {
      saved.(high := high, writes := writes, sealed := saved.sealed && writes == saved.writes,
             tape := saved.tape.(bytes := tape.bytes, stray := tape.stray))
    }
  }

  /** Before a parse that prints to "bytes", with "behind" in memory after them. */
  function Start(bytes: string, behind: nat -> char): Out {
    Out("", "", -1, true, 0, 0, false, 0, Tape(bytes, 0, 0, -1, false, false, behind))
  }

  function Exec(tr: Trace, o: Out): (r: Out)
    ensures o.high <= r.high && o.writes <= r.writes
  {
    match tr
    case Nothing => o
    case Emit(str) => o.Print(str)
    case EmitPrev => o.PrintPrev()
    case Separator => o.Separate()
    case Retracted(b) => Exec(b, o.Separate()).Cancel()
    case Deeper => o.Descend()
    case Both(a, b) => Exec(b, Exec(a, o))
    case Attempt(b) => Exec(b, o).Rollback(o)
    case Muted(b) => Exec(b, o.(append := false)).(append := o.append)
    case Nested(b) => Exec(b, o.(nest := 0)).(nest := o.nest)
  }

  /** A trace made of rolled-back attempts only. */
  predicate Frozen(tr: Trace) {
    match tr
    case Nothing => true
    case Attempt(_) => true
    case Both(a, b) => Frozen(a) && Frozen(b)
    case _ => false
  }

  /** Rolled-back attempts leave nothing but marks of what was tried and stale bytes. */
  lemma {:induction false} FrozenKeeps(tr: Trace, o: Out)
    requires Frozen(tr)
    ensures Exec(tr, o) == Exec(tr, o).Rollback(o)
  {
    match tr
    case Both(a, b) =>
      FrozenKeeps(a, o);
      FrozenKeeps(b, Exec(a, o));
    case _ =>
  }

  /** With append off no trace prints, remembers or writes anything; only the nest level moves. */
  lemma {:induction false} MutedKeeps(tr: Trace, o: Out)
    requires !o.append
    ensures Exec(tr, o) == o.(nest := Exec(tr, o).nest)
  {
    match tr
    case Both(a, b) =>
      MutedKeeps(a, o);
      MutedKeeps(b, Exec(a, o));
    case Retracted(b) => MutedKeeps(b, o);
    case Attempt(b) => MutedKeeps(b, o);
    case Muted(b) => MutedKeeps(b, o);
    case Nested(b) => MutedKeeps(b, o.(nest := 0));
    case _ =>
  }

  /** No text printed contains the terminator, and a separator is taken back only behind failed attempts. */
  predicate Clean(tr: Trace) {
    match tr
    case Emit(str) => '\0' !in str
    case Retracted(b) => Clean(b) && Frozen(b)
    case Both(a, b) => Clean(a) && Clean(b)
    case Attempt(b) => Clean(b)
    case Muted(b) => Clean(b)
    case Nested(b) => Clean(b)
    case _ => true
  }

  /** Goes no deeper, except inside a nested name that it leaves again. */
  predicate Flat(tr: Trace) {
    match tr
    case Deeper => false
    case Both(a, b) => Flat(a) && Flat(b)
    case Muted(b) => Flat(b)
    case _ => true
  }

  lemma {:induction false} FlatKeeps(tr: Trace, o: Out)
    requires Flat(tr) && Clean(tr)
    ensures Exec(tr, o).nest == o.nest
  {
    match tr
    case Retracted(b) => FrozenKeeps(b, o.Separate());
    case Both(a, b) =>
      FlatKeeps(a, o);
      FlatKeeps(b, Exec(a, o));
    case Muted(b) => FlatKeeps(b, o.(append := false));
    case _ =>
  }

  predicate NoNul(o: Out) { '\0' !in o.text && '\0' !in o.prev }

  lemma {:induction false} CleanRun(tr: Trace, o: Out)
    requires Clean(tr) && NoNul(o)
    ensures NoNul(Exec(tr, o))
  {
    match tr
    case Both(a, b) =>
      CleanRun(a, o);
      CleanRun(b, Exec(a, o));
    case Retracted(b) => CleanRun(b, o.Separate());
    case Attempt(b) => CleanRun(b, o);
    case Muted(b) => CleanRun(b, o.(append := false));
    case Nested(b) => CleanRun(b, o.(nest := 0));
    case _ =>
  }

  /** A whole trace leaves the append flag as it was. */
  lemma {:induction false} AppendKept(tr: Trace, o: Out)
    ensures Exec(tr, o).append == o.append
  {
    match tr
    case Both(a, b) =>
      AppendKept(a, o);
      AppendKept(b, Exec(a, o));
    case Retracted(b) => AppendKept(b, o.Separate());
    case Attempt(b) => AppendKept(b, o);
    case Muted(b) => AppendKept(b, o.(append := false));
    case Nested(b) => AppendKept(b, o.(nest := 0));
    case _ =>
  }
}

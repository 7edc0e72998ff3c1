/** The demangler's state as a value, and what one parsing step does to it. */
module Snapshots {
  import opened CText
  import opened Output
  import opened Recogniser

  /** The mutable fields, as "State copy = *state" saves them. "prevName" is an index into the
      buffer, 0 for the null pointer the source starts from. */
  datatype Fields = Fields(cur: nat, outCur: nat, prevName: nat, prevLen: int, nest: int,
                           append: bool, overflowed: bool, local: nat, expr: nat, arg: nat)

  /** A whole state: what decides acceptance, and what is printed. */
  datatype Snap = Snap(c: Core, o: Out) {
    function Copy(): Fields {
      Fields(c.pos, o.tape.cur, o.tape.name, o.tape.len, o.nest, o.append, o.tape.overflowed, c.local, c.expr, c.arg)
    }

    /** Inside a text, and inside a buffer of "n" bytes. */
    predicate Within(t: CString, n: nat) { Good(t, c) && |o.tape.bytes| == n && o.tape.Within() }
  }

  /** What a nonterminal does: it decides as the recogniser, its output is the run of the
      recogniser's trace, and modes are as on entry. */
  ghost predicate Follows(t: CString, a: Snap, b: Snap, r: Res, ok: bool) {
    FollowsPrefix(t, a, b, r, ok) && b.o.nest == a.o.nest
  }

  /** The same for the prefix loop, which may leave a deeper nest level. */
  ghost predicate FollowsPrefix(t: CString, a: Snap, b: Snap, r: Res, ok: bool) {
    Good(t, r.c) && ok == r.ok && b.c == r.c && b.o == Exec(r.tr, a.o) && b.o.append == a.o.append
  }

  /** What printing does: the output becomes "o", nothing else moves. */
  ghost predicate Printed(a: Snap, b: Snap, o: Out) {
    b.o == o && b.c == a.c && b.o.nest == a.o.nest && b.o.append == a.o.append
  }

  /** Only the cursor and the budgets move, to "c". */
  ghost predicate MovedTo(t: CString, a: Snap, b: Snap, c: Core) { Good(t, c) && b == Snap(c, a.o) }
}

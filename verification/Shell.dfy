/** Quoting a string for the shell, against the shell's own reading of it. */
module Shell {
  datatype Option<T> = None | Some(value: T)

  predicate NeedsNoQuotes(c: char) {
    'A' <= c <= 'Z' || 'a' <= c <= 'z' || '0' <= c <= '9' 
    || c == '+' || c == '-' || c == '_' || c == '.' || c == '=' || c == '/' || c == ':' || c == ',' || c == '@'
  }

  /** The characters a backslash must protect between double quotes. */
  predicate ActiveInDoubleQuotes(c: char) { c == '\\' || c == '$' || c == '"' || c == '`' }

  function Protected(s: string): string {
    if s == "" then ""
    else Protected(s[..|s| - 1]) + (if ActiveInDoubleQuotes(s[|s| - 1]) then ['\\', s[|s| - 1]] else [s[|s| - 1]])
  }

  function Quoted(s: string): string {
    if s != "" && forall c :: c in s ==> NeedsNoQuotes(c) then s
    else if '\'' !in s then "'" + s + "'"
    else "\"" + Protected(s) + "\""
  }

  method ShellEscape(src: string) returns (result: string)
    ensures result == Quoted(src)
  {
    if src != "" && forall c :: c in src ==> NeedsNoQuotes(c) {
      result := src;
    } else if '\'' !in src {
      result := "'";
      result := result + src;
      result := result + "'";
    } else {
      result := "\"";
      for i := 0 to |src|
        invariant result == "\"" + Protected(src[..i])
      {
        assert src[..i + 1][..i] == src[..i];
        if ActiveInDoubleQuotes(src[i]) { result := result + "\\"; }
        result := result + [src[i]];
      }
      assert src[..|src|] == src;
      result := result + "\"";
    }
  }

  // ---------------------------------------------------------------- how the shell reads words

  /** Quoting as in section 2.2 of the POSIX Shell Command Language. */
  datatype Mode = Plain | Escape | SingleQuotes | DoubleQuotes | EscapeInDoubleQuotes | Active

  /** Unquoted, these start an operator, an expansion, a pattern or a comment, or end the command. */
  predicate Special(c: char) {
    || c == '|' || c == '&' || c == ';' || c == '<' || c == '>' || c == '(' || c == ')' || c == '$' || c == '`' || c == '*' || c == '?'
    || c == '[' || c == ']' || c == '#' || c == '~' || c == '%' || c == '!' || c == '{' || c == '}' || c == '\n'
  }

  /** Between double quotes a backslash protects these and no others, by section 2.2.3; it also joins lines. */
  predicate ProtectsInDoubleQuotes(c: char) { c in "$`\"\\" }

  datatype Reader = Reader(mode: Mode, words: seq<string>, current: Option<string>) {
    function Word(): string { if current.Some? then current.value else "" }

    /** One more literal character of the current word. */
    function Add(mode: Mode, text: string): Reader { Reader(mode, words, Some(Word() + text)) }

    function All(): seq<string> { if current.Some? then words + [current.value] else words }

    function Read(c: char): Reader {
      match mode
      case Plain =>
        if c == ' ' || c == '\t' then Reader(Plain, All(), None)
        else if c == '\'' then Add(SingleQuotes, "")
        else if c == '"' then Add(DoubleQuotes, "")
        else if c == '\\' then this.(mode := Escape)
        else if Special(c) then this.(mode := Active)
        else Add(Plain, [c])
      case Escape => if c == '\n' then this.(mode := Plain) else Add(Plain, [c])
      case SingleQuotes => if c == '\'' then this.(mode := Plain) else Add(SingleQuotes, [c])
      case DoubleQuotes =>
        if c == '"' then this.(mode := Plain)
        else if c == '\\' then this.(mode := EscapeInDoubleQuotes)
        else if c == '$' || c == '`' then this.(mode := Active)
        else Add(DoubleQuotes, [c])
      case EscapeInDoubleQuotes =>
        if ProtectsInDoubleQuotes(c) then Add(DoubleQuotes, [c])
        else if c == '\n' then this.(mode := DoubleQuotes)
        else Add(DoubleQuotes, ['\\', c])
      case Active => this
    }

    function ReadAll(s: string): Reader {
      if s == "" then this else ReadAll(s[..|s| - 1]).Read(s[|s| - 1])
    }
  }

  /** The words of a command line, quotes removed; none when it is more than plain words. */
  function Words(line: string): Option<seq<string>> {
    var end := Reader(Plain, [], None).ReadAll(line);
    if end.mode == Plain then Some(end.All()) else None
  }

  lemma {:induction false} ReadBoth(r: Reader, a: string, b: string)
    ensures r.ReadAll(a + b) == r.ReadAll(a).ReadAll(b)
  {
    hide Reader.Read;
    if b == "" {
      assert a + b == a;
    } else {
      ReadBoth(r, a, b[..|b| - 1]);
      assert (a + b)[..|a + b| - 1] == a + b[..|b| - 1];
    }
  }

  lemma AddBoth(r: Reader, mode: Mode, a: string, b: string)
    ensures r.Add(mode, a).Add(mode, b) == r.Add(mode, a + b)
    ensures r.current.Some? ==> r.Add(r.mode, "") == r
  {
    assert r.Word() + "" == r.Word();
    assert (r.Word() + a) + b == r.Word() + (a + b);
  }

  /** Unquoted safe characters, and any but the quote between single quotes, stand for themselves. */
  predicate IsLiteral(mode: Mode, c: char) { (mode == Plain && NeedsNoQuotes(c)) || (mode == SingleQuotes && c != '\'') }

  lemma ReadLiteral(r: Reader, c: char)
    requires r.current.Some? && IsLiteral(r.mode, c)
    ensures r.Read(c) == r.Add(r.mode, [c])
  {
  }

  lemma {:induction false} ReadLiterally(r: Reader, s: string)
    requires r.current.Some? && forall c :: c in s ==> IsLiteral(r.mode, c)
    ensures r.ReadAll(s) == r.Add(r.mode, s)
  {
    hide IsLiteral, Reader.Read;
    if s == "" {
      AddBoth(r, r.mode, "", "");
    } else {
      var front, c := s[..|s| - 1], s[|s| - 1];
      ReadLiterally(r, front);
      ReadLiteral(r.Add(r.mode, front), c);
      AddBoth(r, r.mode, front, [c]);
      assert s == front + [c];
    }
  }

  /** One protected character between double quotes. */
  lemma ReadProtectedOne(r: Reader, c: char)
    requires r.mode == DoubleQuotes
    ensures r.ReadAll(Protected([c])) == r.Add(DoubleQuotes, [c])
  {
    assert [c][..0] == "";
    assert ActiveInDoubleQuotes(c) <==> ProtectsInDoubleQuotes(c);
    if ActiveInDoubleQuotes(c) {
      assert Protected([c]) == ['\\', c];
      ReadTwo(r, '\\', c);
    } else {
      assert Protected([c]) == [c];
      ReadOne(r, c);
    }
  }

  lemma {:induction false} ReadProtected(r: Reader, s: string)
    requires r.current.Some? && r.mode == DoubleQuotes
    ensures r.ReadAll(Protected(s)) == r.Add(DoubleQuotes, s)
  {
    hide Reader.ReadAll, ActiveInDoubleQuotes;
    if s == "" {
      AddBoth(r, r.mode, "", "");
      ReadNothing(r);
    } else {
      var front, c := s[..|s| - 1], s[|s| - 1];
      ReadProtected(r, front);
      ReadBoth(r, Protected(front), Protected([c]));
      ReadProtectedOne(r.Add(DoubleQuotes, front), c);
      AddBoth(r, DoubleQuotes, front, [c]);
      assert s == front + [c];
      ProtectedSnoc(front, c);
    }
  }

  lemma ProtectedSnoc(s: string, c: char)
    ensures Protected(s + [c]) == Protected(s) + Protected([c])
  {
    assert (s + [c])[..|s|] == s && [c][..0] == "";
    assert Protected([c]) == Protected("") + (if ActiveInDoubleQuotes(c) then ['\\', c] else [c]);
  }

  lemma ReadNothing(r: Reader)
    ensures r.ReadAll("") == r
  {
  }

  lemma ReadOne(r: Reader, c: char)
    ensures r.ReadAll([c]) == r.Read(c)
  {
    assert [c][..0] == "";
  }

  lemma ReadTwo(r: Reader, c: char, d: char)
    ensures r.ReadAll([c, d]) == r.Read(c).Read(d)
  {
    ReadOne(r, c);
    assert [c, d][..1] == [c];
  }

  /** A quotation adds what stands between the quotes. */
  lemma ReadQuotation(r: Reader, q: char, mode: Mode, body: string, s: string)
    requires r.mode == Plain && ((q == '\'' && mode == SingleQuotes) || (q == '"' && mode == DoubleQuotes))
    requires r.Add(mode, "").ReadAll(body) == r.Add(mode, "").Add(mode, s)
    ensures r.ReadAll([q] + body + [q]) == r.Add(Plain, s)
  {
    ReadBoth(r, [q] + body, [q]);
    ReadBoth(r, [q], body);
    ReadOne(r, q);
    AddBoth(r, mode, "", s);
    assert "" + s == s;
    ReadOne(r.Add(mode, s), q);
  }

  /** However a string had to be quoted, the shell takes all of it as literal text of one word. */
  lemma QuotedIsLiteral(r: Reader, s: string)
    requires r.mode == Plain
    ensures r.ReadAll(Quoted(s)) == r.Add(Plain, s)
  {
    hide Reader.ReadAll, NeedsNoQuotes;
    if s != "" && forall c :: c in s ==> NeedsNoQuotes(c) {
      ReadUnquoted(r, s);
    } else if '\'' !in s {
      ReadLiterally(r.Add(SingleQuotes, ""), s);
      ReadQuotation(r, '\'', SingleQuotes, s, s);
    } else {
      ReadProtected(r.Add(DoubleQuotes, ""), s);
      ReadQuotation(r, '"', DoubleQuotes, Protected(s), s);
    }
  }

  lemma ReadUnquoted(r: Reader, s: string)
    requires r.mode == Plain && s != "" && forall c :: c in s ==> NeedsNoQuotes(c)
    ensures r.ReadAll(s) == r.Add(Plain, s)
  {
    var c, rest := s[0], s[1..];
    assert s == [c] + rest && c in s;
    ReadOne(r, c);
    ReadBoth(r, [c], rest);
    ReadLiterally(r.Add(Plain, [c]), rest);
    AddBoth(r, Plain, [c], rest);
  }

  /** The quoted strings with blanks between them. */
  function CommandLine(args: seq<string>): string {
    if args == [] then "" else CommandLine(args[..|args| - 1]) + " " + Quoted(args[|args| - 1])
  }

  /** One more quoted string after a blank is one more word. */
  lemma NextWord(r: Reader, s: string)
    requires r.mode == Plain
    ensures r.ReadAll(" " + Quoted(s)) == Reader(Plain, r.All(), Some(s))
  {
    ReadBoth(r, " ", Quoted(s));
    ReadOne(r, ' ');
    var blank := Reader(Plain, r.All(), None);
    QuotedIsLiteral(blank, s);
    assert "" + s == s;
  }

  /** A command line of quoted strings is read as exactly those strings, one word each. */
  lemma {:induction false} CommandLineRoundTrip(args: seq<string>)
    ensures Words(CommandLine(args)) == Some(args)
  {
    hide Quoted, Reader.ReadAll, Reader.Add;
    var start := Reader(Plain, [], None);
    if args == [] {
      ReadNothing(start);
    } else {
      var front, last := args[..|args| - 1], args[|args| - 1];
      CommandLineRoundTrip(front);
      var line := CommandLine(front);
      ReadBoth(start, line, " " + Quoted(last));
      assert line + (" " + Quoted(last)) == CommandLine(args);
      NextWord(start.ReadAll(line), last);
      assert front + [last] == args;
    }
  }

  lemma OneWord(s: string)
    ensures Words(Quoted(s)) == Some([s])
  {
    QuotedIsLiteral(Reader(Plain, [], None), s);
    assert "" + s == s && [] + [s] == [s];
  }
}

/** The names new log files get, and the names the cleaner takes for log files. */
module LogNames {
  import opened Numbers

  // ---------------------------------------------------------------- making a name

  /** Calendar time as the name shows it: the year and month in full. */
  datatype Time = Time(year: nat, month: nat, day: nat, hour: nat, minute: nat, second: nat) {
    predicate Valid() {
      1000 <= year < 10000 && month < 100 && day < 100 && hour < 100 && minute < 100 && second < 100
    }
  }

  /** "YYYYMMDD-HHMMSS.pid": all but the year and the process have two places at least, filled with zeros. */
  function TimePid(t: Time, pid: nat): string {
    Numeral(t.year, 10, 0) + Numeral(t.month, 10, 2) + Numeral(t.day, 10, 2) + "-" +
    Numeral(t.hour, 10, 2) + Numeral(t.minute, 10, 2) + Numeral(t.second, 10, 2) + "." + Numeral(pid, 10, 0)
  }

  // ---------------------------------------------------------------- recognising a name

  /** Runs of slashes become one slash. */
  function Collapse(s: string): string {
    if s == "" then ""
    else
      var front, c := Collapse(s[..|s| - 1]), s[|s| - 1];
      if front == "" || c != '/' || front[|front| - 1] != '/' then front + [c] else front
  }

  /** No two slashes stand side by side. */
  predicate NoDoubled(s: string) {
    |s| < 2 || (NoDoubled(s[..|s| - 1]) && (s[|s| - 2] != '/' || s[|s| - 1] != '/'))
  }

  predicate IsDigit(c: char) { '0' <= c <= '9' }

  predicate CharFits(c: char, i: nat) {
    if i == 8 then c == '-' else if i == 15 then c == '.' else IsDigit(c)
  }

  /** As far as it goes, it is like a time and process stamp. */
  predicate Fits(s: string) { forall i :: 0 <= i < |s| ==> CharFits(s[i], i) }

  predicate SliceFits(path: string, from: nat, end: nat)
    requires from <= |path| && end <= |path|
  {
    from < end ==> Fits(path[from..end])
  }

  /** Behind the first "n" characters there is a stamp, and the extension before or behind it. */
  predicate StampFollows(path: string, n: nat, ext: string)
    requires n <= |path|
  {
    if ext == "" then SliceFits(path, n, |path|)
    else if n == |path| then false
    else if ext <= path[n..] then SliceFits(path, n + |ext|, |path|)
    else |ext| < |path| && path[|path| - |ext|..] == ext && SliceFits(path, n, |path| - |ext|)
  }

  /** What the cleaner takes for a log of its own. */
  predicate Recognised(filepath: string, base: string, ext: string) {
    Collapse(base) <= filepath && StampFollows(filepath, |Collapse(base)|, ext)
  }

  method CleanBase(base: string) returns (clean: string)
    ensures clean == Collapse(base)
  {
    clean := "";
    for i := 0 to |base|
      invariant clean == Collapse(base[..i])
    {
      var c := base[i];
      assert base[..i + 1][..i] == base[..i];
      if clean == "" {
        clean := clean + [c];
      } else if c != '/' || c != clean[|clean| - 1] {
        clean := clean + [c];
      }
    }
    assert base[..|base|] == base;
  }

  /** The characters of "path" from "from" up to "end" have the form of a stamp. */
  method CheckStamp(path: string, from: nat, end: nat) returns (ok: bool)
    requires from <= |path| && end <= |path|
    ensures ok == SliceFits(path, from, end)
  {
    var i := from;
    while i < end
      invariant from <= i && (i <= end || i == from)
      invariant forall j :: from <= j < i ==> CharFits(path[j], j - from)
    {
      var c := path[i];
      if i <= from + 7 {
        if c < '0' || c > '9' { Misfit(path, from, end, i); return false; }
      } else if i == from + 8 {
        if c != '-' { Misfit(path, from, end, i); return false; }
      } else if i <= from + 14 {
        if c < '0' || c > '9' { Misfit(path, from, end, i); return false; }
      } else if i == from + 15 {
        if c != '.' { Misfit(path, from, end, i); return false; }
      } else {
        if c < '0' || c > '9' { Misfit(path, from, end, i); return false; }
      }
      i := i + 1;
    }
    ok := true;
  }

  lemma Misfit(path: string, from: nat, end: nat, i: nat)
    requires from <= i < end <= |path| && !CharFits(path[i], i - from)
    ensures !SliceFits(path, from, end)
  {
    assert path[from..end][i - from] == path[i];
  }

  method IsLogFromCurrentProject(filepath: string, base: string, ext: string) returns (ok: bool)
    ensures ok == Recognised(filepath, base, ext)
  {
    hide SliceFits, Collapse;
    var clean := CleanBase(base);
    var size := |filepath|;
    if !(clean <= filepath) { return false; }
    var from := |clean|;
    if ext != "" {
      if |clean| >= size { return false; }
      if ext <= filepath[|clean|..] {
        from := |clean| + |ext|;
      } else {
        if |ext| >= size { return false; }
        size := |filepath| - |ext|;
        if filepath[size..] != ext { return false; }
      }
    }
    ok := CheckStamp(filepath, from, size);
  }
}

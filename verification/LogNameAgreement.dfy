/** When the cleaner recognises the names that log files are given. */
module LogNameAgreement {
  import opened Numbers
  import opened LogNames

  /** Year to process, complete. */
  predicate IsStamp(s: string) { |s| > 16 && Fits(s) }

  // ---------------------------------------------------------------- the stamp

  lemma {:induction false} DecimalDigits(v: nat, padding: nat)
    ensures Digits(Numeral(v, 10, padding))
    decreases v + padding
  {
    assert IsDigit(DigitChar(LastDigit(v, 10)));
    if !(v < 10 && padding <= 1) { DecimalDigits(Front(v, 10), Less1(padding)); }
  }

  lemma TwoPlaces(v: nat)
    requires v < 100
    ensures |Numeral(v, 10, 2)| == 2 && Digits(Numeral(v, 10, 2))
  {
    NumeralLength(v, 10, 2);
    DecimalDigits(v, 2);
    assert DigitCount(v, 10) == if v < 10 then 1 else 1 + DigitCount(Front(v, 10), 10);
  }

  lemma FourPlaces(v: nat)
    requires 1000 <= v < 10000
    ensures |Numeral(v, 10, 0)| == 4 && Digits(Numeral(v, 10, 0))
  {
    NumeralLength(v, 10, 0);
    DecimalDigits(v, 0);
    var tens := Front(v, 10);
    var hundreds := Front(tens, 10);
    assert DigitCount(v, 10) == 1 + DigitCount(tens, 10) == 2 + DigitCount(hundreds, 10);
    assert DigitCount(hundreds, 10) == 1 + DigitCount(Front(hundreds, 10), 10);
  }

  /** What is written as time and process has the form that is looked for. */
  lemma TimePidIsStamp(t: Time, pid: nat)
    requires t.Valid()
    ensures IsStamp(TimePid(t, pid))
  {
    hide Numeral, Digits;
    FourPlaces(t.year);
    TwoPlaces(t.month);
    TwoPlaces(t.day);
    TwoPlaces(t.hour);
    TwoPlaces(t.minute);
    TwoPlaces(t.second);
    DecimalDigits(pid, 0);
    Parts(Numeral(t.year, 10, 0), Numeral(t.month, 10, 2), Numeral(t.day, 10, 2),
          Numeral(t.hour, 10, 2), Numeral(t.minute, 10, 2), Numeral(t.second, 10, 2), Numeral(pid, 10, 0));
  }

  lemma Places(year: string, month: string, day: string, hour: string, minute: string, second: string, pid: string)
    requires |year| == 4 && |month| == |day| == |hour| == |minute| == |second| == 2
    ensures var s := year + month + day + "-" + hour + minute + second + "." + pid;
            && |s| >= 16 && s[..4] == year && s[4..6] == month && s[6..8] == day && s[8] == '-'
            && s[9..11] == hour && s[11..13] == minute && s[13..15] == second && s[15] == '.' && s[16..] == pid
  {
  }

  /** Every field is read back from its own places. */
  lemma TimePidIsRead(t: Time, pid: nat)
    requires t.Valid()
    ensures var s := TimePid(t, pid);
            && |s| > 16 && s[8] == '-' && s[15] == '.'
            && ReadsAs(s[..4], t.year) && ReadsAs(s[4..6], t.month) && ReadsAs(s[6..8], t.day)
            && ReadsAs(s[9..11], t.hour) && ReadsAs(s[11..13], t.minute) && ReadsAs(s[13..15], t.second)
            && ReadsAs(s[16..], pid)
  {
    hide Numeral;
    FourPlaces(t.year);
    TwoPlaces(t.month);
    TwoPlaces(t.day);
    TwoPlaces(t.hour);
    TwoPlaces(t.minute);
    TwoPlaces(t.second);
    Places(Numeral(t.year, 10, 0), Numeral(t.month, 10, 2), Numeral(t.day, 10, 2),
           Numeral(t.hour, 10, 2), Numeral(t.minute, 10, 2), Numeral(t.second, 10, 2), Numeral(pid, 10, 0));
    NumeralMeans(t.year, 10, 0);
    NumeralMeans(t.month, 10, 2);
    NumeralMeans(t.day, 10, 2);
    NumeralMeans(t.hour, 10, 2);
    NumeralMeans(t.minute, 10, 2);
    NumeralMeans(t.second, 10, 2);
    NumeralMeans(pid, 10, 0);
  }

  /** Digits for a decimal number. */
  predicate ReadsAs(s: string, v: nat) { (forall c :: c in s ==> IsHex(c)) && Value(s, 10) == v }

  predicate Digits(s: string) { forall i :: 0 <= i < |s| ==> IsDigit(s[i]) }

  lemma Parts(year: string, month: string, day: string, hour: string, minute: string, second: string, pid: string)
    requires |year| == 4 && |month| == |day| == |hour| == |minute| == |second| == 2 && |pid| >= 1
    requires Digits(year) && Digits(month) && Digits(day) && Digits(hour) && Digits(minute) && Digits(second) && Digits(pid)
    ensures IsStamp(year + month + day + "-" + hour + minute + second + "." + pid)
  {
  }

  // ---------------------------------------------------------------- behind the base name

  /** What remains of "i" when "n" is taken away as often as possible. */
  function Rest(i: nat, n: nat): (r: nat)
    requires n > 0
    ensures r < n
  {
    if i < n then i else Rest(i - n, n)
  }

  lemma {:induction false} RestOfSum(a: nat, i: nat, n: nat)
    requires i < n
    ensures Rest(a + i, n) == i <==> Rest(a, n) == 0
  {
    if a >= n { RestOfSum(a - n, i, n); }
  }

  /** The extension looks like the start of the stamp, so that it is taken to stand before it. */
  predicate Mistaken(stamp: string, ext: string)
    requires stamp != ""
  {
    ext != "" && ext <= stamp + ext && Rest(|ext|, |stamp|) != 0
  }

  /** Then the extension repeats the stamp. */
  lemma {:induction false} Repeats(stamp: string, ext: string, i: nat)
    requires stamp != "" && ext <= stamp + ext && i < |stamp + ext|
    ensures (stamp + ext)[i] == stamp[Rest(i, |stamp|)]
  {
    if i >= |stamp| {
      Repeats(stamp, ext, i - |stamp|);
      assert ext[i - |stamp|] == (stamp + ext)[i - |stamp|];
    }
  }

  /** The one dash of a stamp. */
  lemma OneDash(stamp: string, i: nat)
    requires IsStamp(stamp) && i < |stamp|
    ensures stamp[i] == '-' <==> i == 8
  {
    assert CharFits(stamp[i], i);
  }

  /** Turning a stamp gives a stamp only when it is turned all the way: the dash must come to its place. */
  lemma TurnedStamp(stamp: string, ext: string)
    requires IsStamp(stamp) && ext <= stamp + ext
    ensures Fits((stamp + ext)[|ext|..]) <==> Rest(|ext|, |stamp|) == 0
  {
    hide Rest, Fits;
    var turned := (stamp + ext)[|ext|..];
    if Rest(|ext|, |stamp|) == 0 {
      forall i | 0 <= i < |stamp| ensures turned[i] == stamp[i] {
        RestOfSum(|ext|, i, |stamp|);
        TurnedAt(stamp, ext, i);
      }
      assert turned == stamp;
    } else {
      RestOfSum(|ext|, 8, |stamp|);
      TurnedAt(stamp, ext, 8);
      OneDash(stamp, Rest(|ext| + 8, |stamp|));
      NoDash(turned);
    }
  }

  lemma TurnedAt(stamp: string, ext: string, i: nat)
    requires stamp != "" && ext <= stamp + ext && i < |stamp|
    ensures (stamp + ext)[|ext|..][i] == stamp[Rest(|ext| + i, |stamp|)]
  {
    Repeats(stamp, ext, |ext| + i);
  }

  lemma NoDash(s: string)
    requires |s| > 8 && s[8] != '-'
    ensures !Fits(s)
  {
    assert !CharFits(s[8], 8);
  }

  /** A file behind the cleaned base name is recognised exactly when its extension is not mistaken. */
  lemma BehindClean(clean: string, stamp: string, ext: string)
    requires IsStamp(stamp)
    ensures StampFollows(clean + stamp + ext, |clean|, ext) <==> !Mistaken(stamp, ext)
  {
    hide Fits, CharFits;
    var path := clean + stamp + ext;
    assert path[|clean|..] == stamp + ext;
    if ext == "" {
      assert path[|clean|..|path|] == stamp;
    } else if ext <= stamp + ext {
      TurnedStamp(stamp, ext);
      assert path[|clean| + |ext|..|path|] == (stamp + ext)[|ext|..];
    } else {
      assert path[|path| - |ext|..] == ext;
      assert path[|clean|..|path| - |ext|] == stamp;
    }
  }

  /** An extension that does not start with a digit is never mistaken. */
  lemma PlainExtension(stamp: string, ext: string)
    requires IsStamp(stamp) && ext != "" && !IsDigit(ext[0])
    ensures !Mistaken(stamp, ext)
  {
    assert CharFits(stamp[0], 0);
    assert (stamp + ext)[0] == stamp[0];
  }

  /** One that starts with a digit can be: the file is then never cleaned up. */
  lemma DigitExtension()
    ensures IsStamp("20240229-235959.7") && Mistaken("20240229-235959.7", "2")
  {
  }

  // ---------------------------------------------------------------- slashes in the base name

  lemma {:induction false} CollapseKeeps(s: string)
    requires NoDoubled(s)
    ensures Collapse(s) == s
  {
    if s != "" { CollapseKeeps(s[..|s| - 1]); }
  }

  lemma {:induction false} CollapseBehind(a: string, b: string)
    requires '/' !in b
    ensures Collapse(a + b) == Collapse(a) + b
  {
    if b == "" {
      assert a + b == a;
    } else {
      var n := |b| - 1;
      CollapseBehind(a, b[..n]);
      assert (a + b)[..|a| + n] == a + b[..n];
      assert b[n] in b;
    }
  }

  /** Where the first doubled slash is, the cleaned name goes on differently, or ends. */
  lemma {:induction false} FirstDoubled(s: string) returns (i: nat)
    requires !NoDoubled(s)
    ensures i + 1 < |s| && s[i] == s[i + 1] == '/' && i < |Collapse(s)| && Collapse(s)[..i + 1] == s[..i + 1]
    ensures i + 1 < |Collapse(s)| ==> Collapse(s)[i + 1] != '/'
  {
    var n := |s| - 1;
    var front := s[..n];
    if NoDoubled(front) {
      CollapseKeeps(front);
      i := n - 1;
      assert s[n - 1] == front[n - 1];
    } else {
      i := FirstDoubled(front);
      assert front[..i + 1] == s[..i + 1];
    }
  }

  lemma NotAPrefix(a: string, b: string, i: nat)
    requires i < |a| && i < |b| && a[i] != b[i]
    ensures !(a <= b)
  {
  }

  /** What follows the cleaned name starts with a slash: no stamp. */
  lemma SlashFollows(path: string, n: nat, ext: string, end: nat)
    requires n < end && |path| == end + |ext| && path[n] == '/' && '/' !in ext
    ensures !StampFollows(path, n, ext)
  {
    if ext != "" {
      assert ext[0] in ext;
      NotAPrefix(ext, path[n..], 0);
    }
    assert path[n..end][0] == '/' && !CharFits('/', 0);
  }

  // ---------------------------------------------------------------- where the cleaner looks

  /** The position behind the last slash; 0 without one. */
  function BehindLastSlash(s: string): (k: nat)
    ensures k <= |s| && '/' !in s[k..] && (k > 0 ==> s[k - 1] == '/')
  {
    if s == "" then 0 else if s[|s| - 1] == '/' then |s|
    else
      var k := BehindLastSlash(s[..|s| - 1]);
      assert s[k..] == s[..|s| - 1][k..] + [s[|s| - 1]];
      k
  }

  /** The directory searched for a chosen base name. */
  function DirOf(base: string): string {
    if BehindLastSlash(base) > 0 then base[..BehindLastSlash(base)] else "."
  }

  /** The path under which a directory entry is looked at. */
  function PathOf(dir: string, entry: string): string {
    if dir != "" && dir[|dir| - 1] == '/' then dir + entry else entry
  }

  /** A new log's own entry in its directory. */
  function EntryOf(base: string, stamp: string, ext: string): string { base[BehindLastSlash(base)..] + stamp + ext }

  /** The cleaner looks at a new log under the very name it was made with. */
  lemma LookedAt(base: string, stamp: string, ext: string)
    ensures PathOf(DirOf(base), EntryOf(base, stamp, ext)) == base + stamp + ext
  {
    var k := BehindLastSlash(base);
    Regroup(base[..k], base[k..], stamp, ext);
    assert base[..k] + base[k..] == base;
    if k > 0 { assert base[..k][k - 1] == '/'; }
  }

  /** A name with a slash in its end lies in another directory than the one searched. */
  lemma NoSlashedEntry(base: string, end: string, entry: string)
    requires '/' in end && '/' !in entry
    ensures PathOf(DirOf(base), entry) != base + end
  {
    var k := BehindLastSlash(base);
    var i :| 0 <= i < |end| && end[i] == '/';
    var j, front, path := |base| + i, if k > 0 then base[..k] else "", PathOf(DirOf(base), entry);
    assert (base + end)[j] == '/' && path == front + entry;
    if j < |path| {
      assert path[j] == entry[j - |front|];
      assert entry[j - |front|] in entry;
    }
  }

  /** What the cleaner finds when it searches the directory of a chosen base name: its entries have no slash. */
  ghost predicate Found(base: string, path: string, ext: string) {
    (exists entry :: '/' !in entry && PathOf(DirOf(base), entry) == path) && Recognised(path, base, ext)
  }

  lemma Listed(base: string, end: string)
    requires '/' !in end
    ensures exists entry :: '/' !in entry && PathOf(DirOf(base), entry) == base + end
  {
    var k := BehindLastSlash(base);
    LookedAt(base, end, "");
    assert base[k..] + end + "" == base[k..] + end && base + end + "" == base + end;
    assert '/' !in base[k..] + end;
  }

  lemma StampHasNoSlash(stamp: string)
    requires IsStamp(stamp)
    ensures '/' !in stamp
  {
    forall i | 0 <= i < |stamp| ensures stamp[i] != '/' { assert CharFits(stamp[i], i); }
  }

  /**
   * With a chosen base name, the cleaner finds the file it is made for exactly when the name has no doubled
   * slash, the extension has no slash, and the extension is not mistaken.
   */
  lemma ChosenNameAgreement(base: string, stamp: string, ext: string)
    requires IsStamp(stamp)
    ensures Found(base, base + stamp + ext, ext) <==> NoDoubled(base) && '/' !in ext && !Mistaken(stamp, ext)
  {
    hide Fits, Recognised, NoDoubled, Mistaken, DirOf, PathOf;
    assert base + stamp + ext == base + (stamp + ext);
    StampHasNoSlash(stamp);
    if '/' in ext {
      assert '/' in stamp + ext;
      forall entry | '/' !in entry ensures PathOf(DirOf(base), entry) != base + (stamp + ext) {
        NoSlashedEntry(base, stamp + ext, entry);
      }
    } else {
      Listed(base, stamp + ext);
      ChosenRecognised(base, stamp, ext);
    }
  }

  lemma ChosenRecognised(base: string, stamp: string, ext: string)
    requires IsStamp(stamp) && '/' !in ext
    ensures Recognised(base + stamp + ext, base, ext) <==> NoDoubled(base) && !Mistaken(stamp, ext)
  {
    hide Fits, StampFollows, Collapse, NoDoubled;
    var path := base + stamp + ext;
    if NoDoubled(base) {
      CollapseKeeps(base);
      RecognisedBehind(path, base, base, stamp, ext);
    } else {
      DoubledBase(base, stamp, ext);
    }
  }

  /** A doubled slash stays in the path but not in the cleaned name. */
  lemma DoubledBase(base: string, end: string, ext: string)
    requires !NoDoubled(base) && '/' !in ext
    ensures !Recognised(base + end + ext, base, ext)
  {
    hide StampFollows, Collapse, NoDoubled;
    var path := base + end + ext;
    var i := FirstDoubled(base);
    assert path[i + 1] == base[i + 1];
    if i + 1 < |Collapse(base)| {
      NotAPrefix(Collapse(base), path, i + 1);
    } else {
      SlashFollows(path, i + 1, ext, |base + end|);
    }
  }

  /** Without a stamp in the name it is found exactly when neither has a slash too many. */
  lemma UnstampedNameAgreement(base: string, ext: string)
    ensures Found(base, base + ext, ext) <==> NoDoubled(base) && '/' !in ext
  {
    hide Recognised, NoDoubled, DirOf, PathOf;
    if '/' in ext {
      forall entry | '/' !in entry ensures PathOf(DirOf(base), entry) != base + ext { NoSlashedEntry(base, ext, entry); }
    } else {
      Listed(base, ext);
      if NoDoubled(base) {
        CollapseKeeps(base);
        BareIsRecognised(base, ext);
      } else {
        DoubledBase(base, "", ext);
        assert base + "" + ext == base + ext;
      }
    }
  }

  lemma BareIsRecognised(base: string, ext: string)
    requires Collapse(base) == base
    ensures Recognised(base + ext, base, ext)
  {
    var path := base + ext;
    assert path[|base|..] == ext;
  }

  /** The name a log file gets: found again by the cleaner under exactly these conditions. */
  method CreateLogfileName(base: string, stamped: bool, timePid: string, ext: string) returns (name: string)
    requires IsStamp(timePid)
    ensures name == base + (if stamped then timePid else "") + ext
    ensures Found(base, name, ext) <==> NoDoubled(base) && '/' !in ext && (stamped ==> !Mistaken(timePid, ext))
  {
    hide Found, NoDoubled, Mistaken, IsStamp;
    name := base;
    if stamped { name := name + timePid; }
    name := name + ext;
    if stamped {
      ChosenNameAgreement(base, timePid, ext);
    } else {
      UnstampedNameAgreement(base, ext);
      assert base + "" + ext == base + ext;
    }
  }

  /**
   * Without a chosen one, the base is a logging directory, which ends in a slash, a further slash and a
   * program name: the directory must have no doubled slash of its own, and the extension none at all.
   */
  lemma DefaultNameAgreement(dir: string, name: string, stamp: string, ext: string)
    requires IsStamp(stamp) && dir != "" && dir[|dir| - 1] == '/' && name != "" && '/' !in name
    ensures var entry := name + stamp + ext;
            ('/' !in entry && Recognised(PathOf(dir, entry), dir + "/" + name, ext)) <==>
            (NoDoubled(dir) && '/' !in ext && !Mistaken(stamp, ext))
  {
    hide Fits, Recognised, NoDoubled, Mistaken, PathOf;
    StampHasNoSlash(stamp);
    assert '/' in name + stamp + ext <==> '/' in ext;
    if '/' !in ext { DefaultRecognised(dir, name, stamp, ext); }
  }

  lemma DefaultRecognised(dir: string, name: string, stamp: string, ext: string)
    requires IsStamp(stamp) && '/' !in ext
    requires dir != "" && dir[|dir| - 1] == '/' && name != "" && '/' !in name
    ensures Recognised(PathOf(dir, name + stamp + ext), dir + "/" + name, ext) <==> NoDoubled(dir) && !Mistaken(stamp, ext)
  {
    hide Fits, StampFollows, Collapse, NoDoubled, Mistaken, Recognised, PathOf;
    var entry, base := name + stamp + ext, dir + "/" + name;
    InDirectory(dir, entry);
    CleanedDefault(dir, name);
    if NoDoubled(dir) {
      CollapseKeeps(dir);
      Regroup(dir, name, stamp, ext);
      RecognisedBehind(dir + entry, base, dir + name, stamp, ext);
    } else {
      DoubledDirectory(dir, name, entry);
      Unrelated(dir + entry, base, ext);
    }
  }

  lemma InDirectory(dir: string, entry: string)
    requires dir != "" && dir[|dir| - 1] == '/'
    ensures PathOf(dir, entry) == dir + entry
  {
  }

  lemma Regroup(a: string, b: string, c: string, d: string)
    ensures a + (b + c + d) == (a + b) + c + d
  {
  }

  lemma RecognisedBehind(path: string, base: string, clean: string, stamp: string, ext: string)
    requires IsStamp(stamp) && Collapse(base) == clean && path == clean + stamp + ext
    ensures Recognised(path, base, ext) <==> !Mistaken(stamp, ext)
  {
    BehindClean(clean, stamp, ext);
    assert path[..|clean|] == clean;
  }

  lemma Unrelated(path: string, base: string, ext: string)
    requires !(Collapse(base) <= path)
    ensures !Recognised(path, base, ext)
  {
  }

  lemma CleanedDefault(dir: string, name: string)
    requires dir != "" && dir[|dir| - 1] == '/' && '/' !in name
    ensures Collapse(dir + "/" + name) == Collapse(dir) + name
  {
    CollapseBehind(dir + "/", name);
    SlashAddsNothing(dir);
  }

  lemma DoubledDirectory(dir: string, name: string, entry: string)
    requires !NoDoubled(dir) && name != "" && '/' !in name
    ensures !(Collapse(dir) + name <= dir + entry)
  {
    hide Collapse, NoDoubled;
    var i := FirstDoubled(dir);
    var clean, path := Collapse(dir) + name, dir + entry;
    assert path[i + 1] == dir[i + 1];
    assert name[0] in name;
    assert clean[i + 1] == if i + 1 < |Collapse(dir)| then Collapse(dir)[i + 1] else name[0];
    NotAPrefix(clean, path, i + 1);
  }

  lemma {:induction false} SlashAddsNothing(s: string)
    requires s != "" && s[|s| - 1] == '/'
    ensures Collapse(s + "/") == Collapse(s)
  {
    assert (s + "/")[..|s|] == s;
  }

  /** The cleaner takes more than whole names: one that stops anywhere in the stamp passes too. */
  lemma UnfinishedNamesPass(base: string, stamp: string, k: nat)
    requires IsStamp(stamp) && k <= |stamp|
    ensures Recognised(Collapse(base) + stamp[..k], base, "")
  {
    var path := Collapse(base) + stamp[..k];
    assert path[|Collapse(base)|..|path|] == stamp[..k];
  }

  // ---------------------------------------------------------------- what is recognised, and nothing else

  predicate AllNumeric(s: string) { forall i :: 0 <= i < |s| ==> '0' <= s[i] <= '9' }

  /** "date-time.process", each of digits. */
  predicate IsParts(date: string, time: string, process: string) {
    |date| == 8 && |time| == 6 && AllNumeric(date) && AllNumeric(time) && AllNumeric(process)
  }

  /** The beginning of a date, a time and a process, perhaps all of them. */
  ghost predicate Begins(s: string) {
    exists date, time, process :: IsParts(date, time, process) && s <= date + "-" + time + "." + process
  }

  lemma PartsAt(date: string, time: string, process: string, i: nat)
    requires |date| == 8 && |time| == 6 && i < |date + "-" + time + "." + process|
    ensures (date + "-" + time + "." + process)[i] ==
              if i < 8 then date[i] else if i == 8 then '-' else if i < 15 then time[i - 9]
              else if i == 15 then '.' else process[i - 16]
  {
  }

  /** The places are tested one by one, but what passes is the beginning of a stamp. */
  lemma FitsIsBegins(s: string)
    ensures Fits(s) <==> Begins(s)
  {
    if Fits(s) {
      var date := seq(8, i requires 0 <= i < 8 => if i < |s| then s[i] else '0');
      var time := seq(6, i requires 0 <= i < 6 => if i + 9 < |s| then s[i + 9] else '0');
      var process := if |s| > 16 then s[16..] else "";
      var full := date + "-" + time + "." + process;
      forall i | 0 <= i < |s| ensures s[i] == full[i] {
        PartsAt(date, time, process, i);
        assert CharFits(s[i], i);
      }
      assert s == full[..|s|];
      assert IsParts(date, time, process);
    }
    if date, time, process :| IsParts(date, time, process) && s <= date + "-" + time + "." + process {
      forall i | 0 <= i < |s| ensures CharFits(s[i], i) { PartsAt(date, time, process, i); }
    }
  }

  /**
   * Without an extension exactly the names are taken that go on behind the cleaned base with the beginning of a date,
   * a time and a process.
   */
  lemma PlainIsExact(path: string, base: string)
    ensures Recognised(path, base, "") <==> exists rest :: Begins(rest) && path == Collapse(base) + rest
  {
    hide Fits, Begins, Collapse;
    var clean := Collapse(base);
    FitsIsBegins("");
    EmptyBegins();
    if clean <= path {
      var rest := path[|clean|..];
      FitsIsBegins(rest);
      assert path == clean + rest && path[|clean|..|path|] == rest;
    }
    forall rest | Begins(rest) && path == clean + rest ensures clean <= path && path[|clean|..|path|] == rest {
    }
  }

  lemma EmptyBegins()
    ensures Begins("")
  {
    assert IsParts("00000000", "000000", "");
    assert "" <= "00000000" + "-" + "000000" + "." + "";
  }

  /**
   * What may follow the base in a path, for an extension: the extension and then such a beginning; or, if it does not
   * start with the extension, such a beginning and then the extension; or so little that the extension at the end of
   * the path reaches back into the base.
   */
  ghost predicate Continues(path: string, rest: string, ext: string) {
    && rest != ""
    && if ext <= rest then Begins(rest[|ext|..])
       else if |ext| <= |rest| then rest[|rest| - |ext|..] == ext && Begins(rest[..|rest| - |ext|])
       else |ext| < |path| && path[|path| - |ext|..] == ext
  }

  /** With an extension exactly the names are taken that go on so behind the cleaned base. */
  lemma ExtensionIsExact(path: string, base: string, ext: string)
    requires ext != ""
    ensures Recognised(path, base, ext) <==> exists rest :: Continues(path, rest, ext) && path == Collapse(base) + rest
  {
    hide StampFollows, Continues, Collapse;
    var clean := Collapse(base);
    if clean <= path {
      var rest := path[|clean|..];
      assert path == clean + rest;
      RestIsExact(path, clean, rest, ext);
    }
    forall rest | path == clean + rest ensures clean <= path && rest == path[|clean|..] {
    }
  }

  lemma RestIsExact(path: string, clean: string, rest: string, ext: string)
    requires ext != "" && path == clean + rest
    ensures StampFollows(path, |clean|, ext) <==> Continues(path, rest, ext)
  {
    hide Fits, Begins;
    EmptyBegins();
    assert path[|clean|..] == rest;
    if rest != "" && ext <= rest {
      FitsIsBegins(rest[|ext|..]);
      assert path[|clean| + |ext|..|path|] == rest[|ext|..];
    } else if rest != "" && |ext| <= |rest| {
      FitsIsBegins(rest[..|rest| - |ext|]);
      assert path[|clean|..|path| - |ext|] == rest[..|rest| - |ext|];
      assert path[|path| - |ext|..] == rest[|rest| - |ext|..];
    }
  }

  /** One slash of two makes no difference; with CollapseKeeps this says all about cleaning. */
  lemma {:induction false} CollapseDouble(a: string, b: string)
    ensures Collapse(a + "//" + b) == Collapse(a + "/" + b)
    decreases |b|
  {
    if b == "" {
      assert (a + "//" + b)[..|a| + 1] == a + "/" && a + "/" + b == a + "/" && (a + "/")[..|a|] == a;
    } else {
      var front := b[..|b| - 1];
      CollapseDouble(a, front);
      assert (a + "//" + b)[..|a| + 1 + |b|] == a + "//" + front && (a + "/" + b)[..|a| + |b|] == a + "/" + front;
    }
  }
}

/** VLOG sites, the levels they cache, and the two linked lists that keep the caches current. */
module VLog {
  import opened CText
  import opened Glob

  /** An int32 that a site can point to: FLAGS_v, or the level of one module entry. */
  class Level {
    var value: int

    constructor (value: int)
      ensures this.value == value
    {
      this.value := value;
    }
  }

  class VModuleInfo {
    const pattern: string
    const level: Level
    var next: VModuleInfo?

    constructor (pattern: string, value: int, next: VModuleInfo?)
      ensures this.pattern == pattern && this.next == next && fresh(level) && level.value == value
    {
      this.pattern := pattern;
      level := new Level(value);
      this.next := next;
    }
  }

  /** The static data of one VLOG_IS_ON in the file "file"; "baseName" is None for the null pointer. */
  class SiteFlag {
    const file: string
    var level: Level?
    var baseName: Option<string>
    var next: SiteFlag?

    constructor (file: string)
      ensures this.file == file && level == null && baseName == None && next == null
    {
      this.file := file;
      level, baseName, next := null, None, null;
    }
  }

  datatype Option<T> = None | Some(value: T)

  // ---------------------------------------------------------------- base names

  /** The first index at or after "i" where "ch" occurs, or the length. */
  function IndexOf(s: string, ch: char, i: nat): (k: nat)
    requires i <= |s|
    ensures i <= k <= |s|
    ensures k < |s| ==> s[k] == ch
    ensures ch !in s[i..k]
    decreases |s| - i
  {
    if i == |s| || s[i] == ch then i else IndexOf(s, ch, i + 1)
  }

  lemma SuffixOfSuffix(s: string, k: nat, r: string)
    requires k <= |s| && |r| <= |s| - k && s[k..][|s| - k - |r|..] == r
    ensures s[|s| - |r|..] == r && (|r| < |s| - k ==> s[k..][|s| - k - |r| - 1] == s[|s| - |r| - 1])
  {
  }

  /** The text after the last '/'. */
  function AfterSlash(s: string): (r: string)
    ensures '/' !in r && |r| <= |s| && s[|s| - |r|..] == r
    ensures |r| < |s| ==> s[|s| - |r| - 1] == '/'
  {
    hide IndexOf;
    var k := IndexOf(s, '/', 0);
    if k == |s| then assert s[0..k] == s; s
    else
      var r := AfterSlash(s[k + 1..]);
      SuffixOfSuffix(s, k + 1, r);
      r
  }

  /** The name patterns are matched against: no directory, nothing from the first '.', no "-inl". */
  function BaseName(file: string): (r: string)
    ensures '/' !in r && '.' !in r
  {
    var base := AfterSlash(file);
    var stem := base[..IndexOf(base, '.', 0)];
    if |stem| >= 4 && stem[|stem| - 4..] == "-inl" then stem[..|stem| - 4] else stem
  }

  predicate EndsInInl(s: string) { |s| >= 4 && s[|s| - 4..] == "-inl" }

  /** A file's path taken apart: a directory with its slash or none, a name, "-inl" or nothing, and an extension. */
  predicate IsPath(file: string, dir: string, name: string, inl: string, ext: string) {
    && file == dir + name + inl + ext
    && (dir == "" || dir[|dir| - 1] == '/') && (ext == "" || ext[0] == '.')
    && '/' !in name && '/' !in ext && '.' !in name
    && (inl == "-inl" || (inl == "" && !EndsInInl(name)))
  }

  lemma {:induction false} SlashFound(a: string, b: string)
    requires '/' !in b && (a == "" || a[|a| - 1] == '/')
    ensures AfterSlash(a + b) == b
    decreases |a|
  {
    var k := IndexOf(a + b, '/', 0);
    if a == "" {
      assert a + b == b;
    } else {
      assert (a + b)[|a| - 1] == '/' && k < |a|;
      assert (a + b)[k + 1..] == a[k + 1..] + b;
      SlashFound(a[k + 1..], b);
    }
  }

  lemma {:induction false} IndexIs(s: string, ch: char, i: nat, k: nat)
    requires i <= k <= |s| && (k < |s| ==> s[k] == ch) && forall j :: i <= j < k ==> s[j] != ch
    ensures IndexOf(s, ch, i) == k
    decreases k - i
  {
    if i < k { IndexIs(s, ch, i + 1, k); }
  }

  lemma DotFound(a: string, b: string)
    requires '.' !in a && (b == "" || b[0] == '.')
    ensures IndexOf(a + b, '.', 0) == |a|
  {
    IndexIs(a + b, '.', 0, |a|);
  }

  /** A path in three parts. */
  predicate IsSplit(file: string, dir: string, stem: string, ext: string) {
    && file == dir + (stem + ext)
    && (dir == "" || dir[|dir| - 1] == '/') && (ext == "" || ext[0] == '.')
    && '/' !in stem && '/' !in ext && '.' !in stem
  }

  lemma StemOfSplit(file: string, dir: string, stem: string, ext: string)
    requires IsSplit(file, dir, stem, ext)
    ensures BaseName(file) == if EndsInInl(stem) then stem[..|stem| - 4] else stem
  {
    hide AfterSlash, IndexOf;
    SlashFound(dir, stem + ext);
    DotFound(stem, ext);
    assert (stem + ext)[..|stem|] == stem;
  }

  lemma PathIsSplit(file: string, dir: string, name: string, inl: string, ext: string)
    requires IsPath(file, dir, name, inl, ext)
    ensures IsSplit(file, dir, name + inl, ext)
  {
    hide EndsInInl;
    assert dir + name + inl + ext == dir + ((name + inl) + ext);
  }

  lemma InlEnds(name: string)
    ensures EndsInInl(name + "-inl") && (name + "-inl")[..|name + "-inl"| - 4] == name && name + "" == name
  {
  }

  /** The base name is the name in the path, however it is taken apart. */
  lemma BaseNameOfPath(file: string, dir: string, name: string, inl: string, ext: string)
    requires IsPath(file, dir, name, inl, ext)
    ensures BaseName(file) == name
  {
    hide BaseName, IsSplit, EndsInInl;
    PathIsSplit(file, dir, name, inl, ext);
    StemOfSplit(file, dir, name + inl, ext);
    InlEnds(name);
  }

  lemma EverySplit(file: string) returns (dir: string, stem: string, ext: string)
    ensures IsSplit(file, dir, stem, ext)
  {
    hide AfterSlash, IndexOf;
    var base := AfterSlash(file);
    var dot := IndexOf(base, '.', 0);
    dir, stem, ext := file[..|file| - |base|], base[..dot], base[dot..];
    assert base[..dot] == base[0..dot];
    CutAt(file, |file| - |base|);
    CutAt(base, dot);
  }

  lemma CutAt(s: string, k: nat)
    requires k <= |s|
    ensures s == s[..k] + s[k..]
  {
  }

  lemma InlCut(stem: string) returns (name: string, inl: string)
    ensures name == if EndsInInl(stem) then stem[..|stem| - 4] else stem
    ensures stem == name + inl && (inl == "-inl" || (inl == "" && !EndsInInl(name)))
    ensures forall c :: c in name ==> c in stem
  {
    name := if EndsInInl(stem) then stem[..|stem| - 4] else stem;
    inl := if EndsInInl(stem) then "-inl" else "";
    assert stem == name + inl;
  }

  /** And every path can be taken apart so. */
  lemma EveryPath(file: string) returns (dir: string, inl: string, ext: string)
    ensures IsPath(file, dir, BaseName(file), inl, ext)
  {
    hide BaseName, EndsInInl;
    var stem, name;
    dir, stem, ext := EverySplit(file);
    StemOfSplit(file, dir, stem, ext);
    name, inl := InlCut(stem);
    Together(dir, name, inl, ext);
  }

  lemma Together(a: string, b: string, c: string, d: string)
    ensures a + ((b + c) + d) == a + b + c + d
  {
  }

  // ---------------------------------------------------------------- the --vmodule flag

  predicate IsSpace(c: char) { c == ' ' || 9 <= c as int <= 13 }

  predicate IsDigit(c: char) { '0' <= c <= '9' }

  /** The digits of "s" at the start, as a number on top of "acc". */
  function Digits(s: string, acc: nat): nat
    decreases |s|
  {
    if s == "" || !IsDigit(s[0]) then acc else Digits(s[1..], 10 * acc + (s[0] as int - '0' as int))
  }

  /** What "%d" reads at the start of "s". */
  function ScanInt(s: string): Option<int>
    decreases |s|
  {
    if s == "" then None else
    if IsSpace(s[0]) then ScanInt(s[1..]) else
    var sign := s[0] == '-' || s[0] == '+';
    var d := if sign then s[1..] else s;
    if d == "" || !IsDigit(d[0]) then None
    else var n: int := Digits(d, 0); Some(if s[0] == '-' then -n else n)
  }

  datatype Entry = Entry(pattern: string, value: int)

  datatype Step = Done | Step(entry: Option<Entry>, rest: string)

  /** One turn of the reader: up to '=', a number if there is one, on past the next ','. */
  function NextEntry(flag: string): (step: Step)
    ensures step.Step? ==> |step.rest| < |flag|
  {
    var eq := IndexOf(flag, '=', 0);
    if eq == |flag| then Done else
      var v := ScanInt(flag[eq + 1..]);
      var comma := IndexOf(flag, ',', eq);
      Step(if v == None then None else Some(Entry(flag[..eq], v.value)),
           if comma == |flag| then "" else flag[comma + 1..])
  }

  /** The entries of the flag in order; an entry without a number is skipped. */
  function Entries(flag: string): seq<Entry>
    decreases |flag|
  {
    match NextEntry(flag)
    case Done => []
    case Step(None, rest) => Entries(rest)
    case Step(Some(e), rest) => [e] + Entries(rest)
  }

  /** A number as it is written into the flag. */
  function Signed(n: int): string { if n < 0 then "-" + Written(-n) else Written(n) }

  /** The flag for a list of patterns and levels. */
  function Printed(es: seq<Entry>): string {
    if es == [] then ""
    else es[0].pattern + ("=" + Signed(es[0].value) + if |es| == 1 then "" else "," + Printed(es[1..]))
  }

  lemma {:induction false} DigitsOfWritten(n: nat, rest: string)
    ensures Digits(Written(n) + rest, 0) == Digits(rest, n)
  {
    var d := [('0' as int + n % 10) as char];
    assert (d + rest)[1..] == rest;
    if n >= 10 {
      DigitsOfWritten(n / 10, d + rest);
      assert Written(n) + rest == Written(n / 10) + (d + rest);
    }
  }

  lemma WrittenStarts(n: nat)
    ensures forall c :: c in Written(n) ==> IsDigit(c)
  {
    WrittenMeans(n);
  }

  /** What is written is read, up to the end or a comma. */
  lemma SignedIsRead(n: int, rest: string)
    requires rest == "" || rest[0] == ','
    ensures ScanInt(Signed(n) + rest) == Some(n) && ',' !in Signed(n) && Signed(n) != ""
  {
    hide Written, Digits;
    var m := if n < 0 then -n else n;
    DigitsOfWritten(m, rest);
    WrittenStarts(m);
    NoDigits(rest, m);
    assert (Signed(n) + rest)[0] == Signed(n)[0];
    if n < 0 {
      assert (Signed(n) + rest)[1..] == Written(m) + rest && (Written(m) + rest)[0] in Written(m);
    } else {
      assert Signed(n)[0] in Written(m);
    }
  }

  /** White space before a number and a plus sign make no difference. */
  lemma BlanksAndPlus(c: char, s: string, n: nat, rest: string)
    requires rest == "" || rest[0] == ','
    ensures c in " \t\n\r" || c as int in {11, 12} ==> ScanInt([c] + s) == ScanInt(s)
    ensures ScanInt("+" + Written(n) + rest) == Some(n)
  {
    hide Written, Digits;
    assert ([c] + s)[1..] == s;
    DigitsOfWritten(n, rest);
    WrittenStarts(n);
    NoDigits(rest, n);
    assert ("+" + Written(n) + rest)[1..] == Written(n) + rest && (Written(n) + rest)[0] in Written(n);
  }

  lemma NoDigits(rest: string, acc: nat)
    requires rest == "" || rest[0] == ','
    ensures Digits(rest, acc) == acc
  {
  }

  /** One entry and what follows it. */
  lemma EntryIsRead(e: Entry, rest: string)
    requires '=' !in e.pattern && (rest == "" || rest[0] == ',')
    ensures NextEntry(e.pattern + ("=" + Signed(e.value) + rest)) == Step(Some(e), if rest == "" then "" else rest[1..])
  {
    hide Signed, ScanInt, IndexOf;
    var number := Signed(e.value);
    var tail := "=" + number + rest;
    var flag := e.pattern + tail;
    SignedIsRead(e.value, rest);
    var eq := |e.pattern|;
    IndexIs(flag, '=', 0, eq);
    assert flag[eq + 1..] == number + rest && flag[..eq] == e.pattern;
    forall j | eq <= j < eq + 1 + |number| ensures flag[j] != ',' {
      if j > eq { assert flag[j] == number[j - eq - 1]; }
    }
    IndexIs(flag, ',', eq, eq + 1 + |number|);
    if rest != "" { assert flag[eq + 1 + |number| + 1..] == rest[1..]; }
  }

  /** A flag printed from a list is read as that list. */
  lemma {:induction false} PrintedIsRead(es: seq<Entry>)
    requires forall e :: e in es ==> '=' !in e.pattern
    ensures Entries(Printed(es)) == es
  {
    hide NextEntry, Signed;
    if es == [] {
      assert NextEntry("") == Done by { NothingLeft(); }
    } else {
      var rest := if |es| == 1 then "" else "," + Printed(es[1..]);
      EntryIsRead(es[0], rest);
      PrintedIsRead(es[1..]);
      if |es| > 1 { assert rest[1..] == Printed(es[1..]); }
      assert es == [es[0]] + es[1..];
    }
  }

  lemma NothingLeft()
    ensures NextEntry("") == Done
  {
  }

  // ---------------------------------------------------------------- lookups as functions

  predicate ModuleMatches(m: VModuleInfo, name: string) { FNMatch(m.pattern, name) }

  predicate SiteMatches(s: SiteFlag, pattern: string) { FNMatch(pattern, BaseName(s.file)) }

  /** The entry is the pattern itself or a glob that matches it. */
  predicate Covers(m: VModuleInfo, pattern: string) { m.pattern == pattern || FNMatch(m.pattern, pattern) }

  /** The first entry that covers the pattern, or the length. */
  ghost function FirstCover(ms: seq<VModuleInfo>, pattern: string): (k: nat)
    ensures k <= |ms|
    ensures k < |ms| ==> Covers(ms[k], pattern)
    ensures forall j :: 0 <= j < k ==> !Covers(ms[j], pattern)
  {
    if ms == [] || Covers(ms[0], pattern) then 0 else 1 + FirstCover(ms[1..], pattern)
  }

  /** The first entry whose pattern matches, or the length. */
  ghost function FirstMatch(ms: seq<VModuleInfo>, name: string): (k: nat)
    ensures k <= |ms|
    ensures k < |ms| ==> ModuleMatches(ms[k], name)
    ensures forall j :: 0 <= j < k ==> !ModuleMatches(ms[j], name)
  {
    if ms == [] || ModuleMatches(ms[0], name) then 0 else 1 + FirstMatch(ms[1..], name)
  }

  /** What a site of this name points to by a fresh lookup. */
  ghost function Lookup(ms: seq<VModuleInfo>, default: Level, name: string): Level {
    var k := FirstMatch(ms, name);
    if k < |ms| then ms[k].level else default
  }

  /** The sites of a list whose name a pattern does not match, in order. */
  ghost function Unmatched(sites: seq<SiteFlag>, pattern: string): (r: seq<SiteFlag>)
    ensures |r| <= |sites|
    ensures forall s :: s in r ==> s in sites && !SiteMatches(s, pattern)
    ensures forall s :: s in sites && !SiteMatches(s, pattern) ==> s in r
  {
    if sites == [] then [] else
    var rest := Unmatched(sites[1..], pattern);
    if SiteMatches(sites[0], pattern) then rest else [sites[0]] + rest
  }

  ghost function ModuleAt(ms: seq<VModuleInfo>, i: nat): VModuleInfo? { if i < |ms| then ms[i] else null }

  ghost function SiteAt(ss: seq<SiteFlag>, i: nat): SiteFlag? { if i < |ss| then ss[i] else null }

  ghost predicate Distinct<T>(s: seq<T>) {
    forall i, j :: 0 <= i < j < |s| ==> s[i] != s[j]
  }

  lemma {:induction false} UnmatchedSnoc(sites: seq<SiteFlag>, x: SiteFlag, pattern: string)
    ensures Unmatched(sites + [x], pattern) ==
              if SiteMatches(x, pattern) then Unmatched(sites, pattern) else Unmatched(sites, pattern) + [x]
  {
    hide SiteMatches;
    if sites == [] {
      assert sites + [x] == [x];
    } else {
      UnmatchedSnoc(sites[1..], x, pattern);
      assert (sites + [x])[1..] == sites[1..] + [x];
    }
  }

  // ---------------------------------------------------------------- the global state

  lemma OneBaseName(file: string)
    ensures forall dir, name, inl, ext :: IsPath(file, dir, name, inl, ext) ==> name == BaseName(file)
  {
    forall dir, name, inl, ext | IsPath(file, dir, name, inl, ext) ensures name == BaseName(file) {
      BaseNameOfPath(file, dir, name, inl, ext);
    }
  }

  class State {
    const flagV: Level
    const vmoduleFlag: string
    var vmoduleList: VModuleInfo?
    var cachedSiteList: SiteFlag?
    var inited: bool
    ghost var modules: seq<VModuleInfo>
    ghost var cached: seq<SiteFlag>
    ghost var sites: set<SiteFlag>

    ghost predicate ModuleChain(head: VModuleInfo?, ms: seq<VModuleInfo>)
      reads ms
    {
      head == ModuleAt(ms, 0) && forall i {:trigger ms[i].next} :: 0 <= i < |ms| ==> ms[i].next == ModuleAt(ms, i + 1)
    }

    ghost predicate SiteChain(head: SiteFlag?, ss: seq<SiteFlag>)
      reads ss
    {
      head == SiteAt(ss, 0) && forall i {:trigger ss[i].next} :: 0 <= i < |ss| ==> ss[i].next == SiteAt(ss, i + 1)
    }

    /** Both lists are what their heads lead to, without repetition, and no level is shared. */
    ghost predicate Shape()
      reads `vmoduleList, `cachedSiteList, `modules, `cached, `sites, modules, cached
    {
      && ModuleChain(vmoduleList, modules) && Distinct(modules)
      && SiteChain(cachedSiteList, cached) && Distinct(cached)
      && (forall i, j :: 0 <= i < j < |modules| ==> modules[i].level != modules[j].level)
      && (forall m :: m in modules ==> m.level != flagV)
      && (forall s :: s in cached ==> s in sites)
    }

    /** A site is on the list just if it points to the default, and then no module matches it;
        any other cached pointer leads to an entry that matches. */
    ghost predicate SiteOk(s: SiteFlag)
      reads this, s
    {
      && (s in cached <==> s.level == flagV)
      && (s.level != null && s.level != flagV ==>
            exists m :: m in modules && m.level == s.level && ModuleMatches(m, BaseName(s.file)))
      && (s in cached ==> forall m :: m in modules ==> !ModuleMatches(m, BaseName(s.file)))
      && (s in cached ==> s.baseName == Some(BaseName(s.file)))
      && (s.baseName != None ==> s in cached || exists m :: m in modules && ModuleMatches(m, BaseName(s.file)))
    }

    ghost predicate Valid()
      reads this, modules, cached, sites
    {
      && Shape()
      && (forall s :: s in sites ==> SiteOk(s))
      && (!inited ==> sites == {})
    }

    constructor (v: int, vmodule: string)
      ensures Valid() && !inited && modules == [] && sites == {} && vmoduleFlag == vmodule
      ensures fresh(flagV) && flagV.value == v
    {
      flagV := new Level(v);
      vmoduleFlag := vmodule;
      vmoduleList, cachedSiteList, inited := null, null, false;
      modules, cached, sites := [], [], {};
    }

    // ---------------------------------------------------------------- a site asks for its level

    /** The entry a fresh lookup of "name" finds. */
    method FindModule(name: string) returns (info: VModuleInfo?)
      requires Shape()
      ensures var k := FirstMatch(modules, name); info == if k < |modules| then modules[k] else null
    {
      info := vmoduleList;
      ghost var i := 0;
      while info != null && !ModuleMatches(info, name)
        invariant i <= |modules| && info == ModuleAt(modules, i)
        invariant forall j :: 0 <= j < i ==> !ModuleMatches(modules[j], name)
        decreases |modules| - i
      {
        info := info.next;
        i := i + 1;
      }
      assert info != null ==> ModuleMatches(modules[i], name);
    }

    /** Under vmodule_lock: any thread may call this for any site, again and again. */
    method InitVLOG3(site: SiteFlag, verboseLevel: int) returns (on: bool)
      requires Valid()
      requires site in sites || (site.level == null && site.baseName == None)
      modifies this, site
      ensures Valid() && inited
      ensures on == (Lookup(modules, flagV, BaseName(site.file)).value >= verboseLevel)
      ensures forall dir, name, inl, ext :: IsPath(site.file, dir, name, inl, ext) ==>
                on == (Lookup(modules, flagV, name).value >= verboseLevel)
      ensures old(inited) ==>
                && modules == old(modules) && sites == old(sites) + {site}
                && site.level == Lookup(modules, flagV, BaseName(site.file))
      ensures !old(inited) ==> sites == {} && site.level == null
      ensures cached == old(cached) || cached == [site] + old(cached)
    {
      hide IsPath, BaseName;
      var readFlag := inited;
      if !readFlag {
        VLOG2Initializer();
      }
      var base := BaseName(site.file);
      var info := FindModule(base);
      var value := if info == null then flagV else info.level;
      if readFlag {
        Cache(site, value);
      }
      on := value.value >= verboseLevel;
      OneBaseName(site.file);
    }

    method Push(site: SiteFlag)
      requires SiteChain(cachedSiteList, cached) && Distinct(cached) && site !in cached
      modifies this`cachedSiteList, this`cached, site`next
      ensures SiteChain(cachedSiteList, cached) && Distinct(cached) && cached == [site] + old(cached)
    {
      ghost var before := cached;
      site.next := cachedSiteList;
      cachedSiteList := site;
      cached := [site] + before;
      forall i | 1 <= i < |cached|
        ensures cached[i].next == SiteAt(cached, i + 1)
      {
        assert cached[i] == before[i - 1] && before[i - 1] in before;
        assert before[i - 1].next == old(before[i - 1].next) == SiteAt(before, i);
      }
    }

    /** Points the site to the level found; a first default puts it at the head of the list. */
    method Cache(site: SiteFlag, value: Level)
      requires Valid() && inited
      requires site in sites || (site.level == null && site.baseName == None)
      requires value == Lookup(modules, flagV, BaseName(site.file))
      modifies this`cachedSiteList, this`cached, this`sites, site
      ensures Valid() && sites == old(sites) + {site} && site.level == value
      ensures cached == old(cached) || cached == [site] + old(cached)
    {
      hide BaseName, FNMatch;
      ghost var name := BaseName(site.file);
      ghost var k := FirstMatch(modules, name);
      assert value == flagV <==> k == |modules|;
      assert value != flagV ==> modules[k] in modules && ModuleMatches(modules[k], name);
      assert site in cached ==> SiteOk(site);
      assert site.baseName != None ==> SiteOk(site);
      site.level := value;
      if value == flagV && site.baseName == None {
        site.baseName := Some(BaseName(site.file));
        Push(site);
      }
      sites := sites + {site};
      assert site in cached <==> site.level == flagV;
      assert SiteOk(site);
      forall s | s in sites && s != site ensures SiteOk(s) {
        assert old(SiteOk(s));
      }
    }

    // ---------------------------------------------------------------- reading the flag

    /** These entries are those of the flag, in order. */
    ghost predicate Holds(ms: seq<VModuleInfo>, es: seq<Entry>)
      reads ms, set m | m in ms :: m.level
    {
      |ms| == |es| && forall i :: 0 <= i < |ms| ==> ms[i].pattern == es[i].pattern && ms[i].level.value == es[i].value
    }

    /** One more entry at the end of the list under construction. */
    method AppendEntry(head: VModuleInfo?, tail: VModuleInfo?, pattern: string, value: int,
                       ghost built: seq<VModuleInfo>)
      returns (head': VModuleInfo, info: VModuleInfo)
      requires Built(head, tail, built)
      modifies if tail == null then {} else {tail}
      ensures Built(head', info, built + [info]) && fresh(info) && fresh(info.level)
      ensures info.pattern == pattern && info.level.value == value
    {
      info := new VModuleInfo(pattern, value, null);
      if head != null {
        tail.next := info;
        head' := head;
      } else {
        head' := info;
      }
    }

    /** The entries of the flag as a list of their own. */
    method BuildList() returns (head: VModuleInfo?, tail: VModuleInfo?, ghost built: seq<VModuleInfo>)
      ensures Built(head, tail, built) && Holds(built, Entries(vmoduleFlag))
      ensures fresh(built) && forall m :: m in built ==> fresh(m.level)
    {
      hide NextEntry;
      var vmodule := vmoduleFlag;
      head, tail, built := null, null, [];
      ghost var got: seq<Entry> := [];
      while true
        invariant Built(head, tail, built) && fresh(built) && (forall m :: m in built ==> fresh(m.level))
        invariant Holds(built, got) && got + Entries(vmodule) == Entries(vmoduleFlag)
        decreases |vmodule|
      {
        var step := NextEntry(vmodule);
        if step.Done? {
          assert got + [] == got;
          break;
        }
        if step.entry.Some? {
          var e := step.entry.value;
          head, tail := AppendEntry(head, tail, e.pattern, e.value, built);
          built := built + [tail];
          assert got + ([e] + Entries(step.rest)) == (got + [e]) + Entries(step.rest);
          got := got + [e];
        }
        vmodule := step.rest;
      }
    }

    method VLOG2Initializer()
      requires Valid() && !inited
      modifies this`vmoduleList, this`modules, this`inited
      ensures Valid() && inited && sites == {} && cached == old(cached)
      ensures var n := |Entries(vmoduleFlag)|;
              && |modules| == n + |old(modules)| && modules[n..] == old(modules)
              && fresh(modules[..n]) && Holds(modules[..n], Entries(vmoduleFlag))
    {
      hide Entries, SiteOk, Shape;
      var head, tail, built := BuildList();
      assert forall i :: 0 <= i < |built| ==> fresh(built[i]);
      assert forall j :: 0 <= j < |modules| ==> !fresh(modules[j]) && !fresh(modules[j].level);
      if head != null {
        Prepend(head, tail, built);
      }
      inited := true;
      assert modules == built + old(modules);
      assert modules[..|built|] == built;
    }

    /** None of these entries or their levels is in use. */
    ghost predicate Foreign(ms: seq<VModuleInfo>)
      reads this
    {
      && (forall m :: m in ms ==> m !in modules && m.level != flagV)
      && (forall i, j :: 0 <= i < |ms| && 0 <= j < |modules| ==> ms[i].level != modules[j].level)
    }

    /** The finished list goes before the entries there are. */
    method Prepend(head: VModuleInfo, tail: VModuleInfo, ghost built: seq<VModuleInfo>)
      requires Shape() && Built(head, tail, built) && Foreign(built)
      modifies this`vmoduleList, this`modules, tail`next
      ensures Shape() && modules == built + old(modules)
    {
      ghost var before := modules;
      tail.next := vmoduleList;
      vmoduleList := head;
      modules := built + before;
      forall i | 0 <= i < |modules| ensures modules[i].next == ModuleAt(modules, i + 1) {
        if i >= |built| {
          ghost var j := i - |built|;
          assert modules[i] == before[j] && before[j] in before;
          assert before[j].next == old(before[j].next) == ModuleAt(before, j + 1);
        }
      }
    }

    /** A list under construction: the last entry's link is not set yet. */
    ghost predicate Built(head: VModuleInfo?, tail: VModuleInfo?, ms: seq<VModuleInfo>)
      reads ms
    {
      && Distinct(ms) && head == ModuleAt(ms, 0)
      && tail == (if ms == [] then null else ms[|ms| - 1])
      && (forall i {:trigger ms[i].next} :: 0 <= i < |ms| - 1 ==> ms[i].next == ms[i + 1])
      && (forall i, j :: 0 <= i < j < |ms| ==> ms[i].level != ms[j].level)
    }

    // ---------------------------------------------------------------- SetVLOGLevel

    /** Sets every entry equal to the pattern; reports the old level of the first that covers it. */
    method UpdateLevels(pattern: string, logLevel: int) returns (found: bool, result: int)
      requires Shape()
      modifies set m | m in modules :: m.level
      ensures found == (FirstCover(modules, pattern) < |modules|)
      ensures result == old(if found then modules[FirstCover(modules, pattern)].level.value else flagV.value)
      ensures forall m :: m in modules ==> m.level.value == if m.pattern == pattern then logLevel else old(m.level.value)
    {
      result, found := flagV.value, false;
      var info := vmoduleList;
      ghost var i := 0;
      while info != null
        invariant i <= |modules| && info == ModuleAt(modules, i)
        invariant found == (FirstCover(modules, pattern) < i)
        invariant result == old(if found then modules[FirstCover(modules, pattern)].level.value else flagV.value)
        invariant forall j :: 0 <= j < i ==>
                    modules[j].level.value == if modules[j].pattern == pattern then logLevel else old(modules[j].level.value)
        invariant forall j :: i <= j < |modules| ==> modules[j].level.value == old(modules[j].level.value)
        decreases |modules| - i
      {
        assert found || (Covers(modules[i], pattern) <==> FirstCover(modules, pattern) == i);
        if info.pattern == pattern {
          if !found {
            result, found := info.level.value, true;
          }
          info.level.value := logLevel;
        } else if !found && FNMatch(info.pattern, pattern) {
          result, found := info.level.value, true;
        }
        info := info.next;
        i := i + 1;
      }
    }

    /** One turn: an item that matches is redirected and unlinked, any other becomes the previous. */
    method RedirectOne(pattern: string, level: Level, previous: SiteFlag?, item: SiteFlag, ghost kept: seq<SiteFlag>)
      returns (previous': SiteFlag?)
      requires Threaded(kept, previous, item) && item !in kept
      modifies `cachedSiteList, item`level
      modifies if previous == null then {} else {previous}`next
      ensures Threaded(if SiteMatches(item, pattern) then kept else kept + [item], previous', old(item.next))
      ensures item.level == if SiteMatches(item, pattern) then level else old(item.level)
    {
      hide SiteMatches;
      if SiteMatches(item, pattern) {
        item.level := level;
        if previous == null {
          cachedSiteList := item.next;
        } else {
          previous.next := item.next;
        }
        previous' := previous;
      } else {
        previous' := item;
      }
    }

    /** Takes every matching site off the list, in place, and points it to "level". */
    method Redirect(pattern: string, level: Level)
      requires SiteChain(cachedSiteList, cached) && Distinct(cached)
      modifies `cachedSiteList, `cached, cached
      ensures SiteChain(cachedSiteList, cached) && Distinct(cached)
      ensures cached == old(Unmatched(cached, pattern))
      ensures forall s :: s in old(cached) ==>
                s.baseName == old(s.baseName) && s.level == if SiteMatches(s, pattern) then level else old(s.level)
    {
      hide SiteMatches, Unmatched, Threaded;
      ghost var all := cached;
      ghost var kept := Unmatched(all[..0], pattern);
      ghost var i := 0;
      var previous: SiteFlag? := null;
      var item := cachedSiteList;
      ThreadStart();
      while item != null
        invariant i <= |all| && item == SiteAt(all, i)
        invariant kept == Unmatched(all[..i], pattern) && (forall s :: s in kept ==> s in all[..i])
        invariant Threaded(kept, previous, item)
        invariant forall j {:trigger all[j].next} :: i <= j < |all| ==> all[j].next == SiteAt(all, j + 1)
        invariant forall s :: s in all ==> s.baseName == old(s.baseName)
        invariant forall j :: 0 <= j < i ==>
                    all[j].level == if SiteMatches(all[j], pattern) then level else old(all[j].level)
        invariant forall j :: i <= j < |all| ==> all[j].level == old(all[j].level)
        decreases |all| - i
      {
        ghost var kept' := if SiteMatches(item, pattern) then kept else kept + [item];
        assert kept' == Unmatched(all[..i + 1], pattern) by {
          UnmatchedSnoc(all[..i], item, pattern);
          assert all[..i + 1] == all[..i] + [item];
        }
        assert item !in all[..i];
        ThreadEnds(kept, previous, item);
        var next := item.next;
        previous := RedirectOne(pattern, level, previous, item, kept);
        forall j | 0 <= j <= i
          ensures all[j].level == if SiteMatches(all[j], pattern) then level else old(all[j].level)
        {
          assert j < i ==> all[j] != all[i];
        }
        kept := kept';
        item := next;
        i := i + 1;
      }
      assert all[..i] == all;
      ThreadEnds(kept, previous, null);
      cached := kept;
    }

    lemma ThreadStart()
      ensures Threaded([], null, cachedSiteList)
    {
    }

    lemma ThreadEnds(kept: seq<SiteFlag>, previous: SiteFlag?, item: SiteFlag?)
      requires Threaded(kept, previous, item)
      ensures previous != null ==> previous in kept
      ensures item == null ==> SiteChain(cachedSiteList, kept) && Distinct(kept)
    {
    }

    /** The kept sites are linked to each other, and the last link leads on to "item". */
    ghost predicate Threaded(kept: seq<SiteFlag>, previous: SiteFlag?, item: SiteFlag?)
      reads `cachedSiteList, kept
    {
      && Distinct(kept)
      && (forall j {:trigger kept[j].next} :: 0 <= j < |kept| - 1 ==> kept[j].next == kept[j + 1])
      && if kept == [] then previous == null && cachedSiteList == item
         else previous == kept[|kept| - 1] && previous.next == item && cachedSiteList == kept[0]
    }

    /** A new entry at the head of the list. */
    method PrependEntry(pattern: string, logLevel: int) returns (info: VModuleInfo)
      requires Shape()
      modifies `vmoduleList, `modules
      ensures Shape() && modules == [info] + old(modules)
      ensures fresh(info) && fresh(info.level) && info.pattern == pattern && info.level.value == logLevel
    {
      info := new VModuleInfo(pattern, logLevel, vmoduleList);
      ghost var before := modules;
      assert forall j :: 0 <= j < |before| ==> !fresh(before[j]) && !fresh(before[j].level);
      vmoduleList := info;
      modules := [info] + before;
      forall i | 1 <= i < |modules| ensures modules[i].next == ModuleAt(modules, i + 1) {
        assert modules[i] == before[i - 1] && before[i - 1].next == ModuleAt(before, i);
      }
    }

    /** Every site that was on the list and matches now points to the new entry; the rest stay,
        in order. */
    ghost predicate Redirected(pattern: string, info: VModuleInfo, before: seq<SiteFlag>)
      reads this, before
    {
      && cached == Unmatched(before, pattern)
      && forall s :: s in before && SiteMatches(s, pattern) ==> s.level == info.level
    }

    method AddModule(pattern: string, logLevel: int)
      requires Valid()
      modifies this, cached
      ensures Valid() && sites == old(sites) && inited == old(inited)
      ensures |modules| > 0 && modules[1..] == old(modules) && fresh(modules[0].level)
      ensures modules[0].pattern == pattern && modules[0].level.value == logLevel
      ensures Redirected(pattern, modules[0], old(cached))
    {
      hide BaseName, FNMatch, Unmatched;
      ghost var before, earlier := cached, modules;
      assert forall s :: s in sites ==> SiteOk(s);
      var info := PrependEntry(pattern, logLevel);
      Redirect(pattern, info.level);
      assert info in modules && forall m :: m in modules <==> m == info || m in earlier;
      forall s | s in sites ensures SiteOk(s) {
        assert old(SiteOk(s));
        assert SiteMatches(s, pattern) == ModuleMatches(info, BaseName(s.file));
        assert s in cached <==> s in before && !SiteMatches(s, pattern);
        assert s !in before ==> s.level == old(s.level) && s.baseName == old(s.baseName);
        assert info.level != flagV;
      }
    }

    method SetVLOGLevel(pattern: string, logLevel: int) returns (result: int)
      requires Valid()
      modifies this, cached, set m | m in modules :: m.level
      ensures Valid() && sites == old(sites) && inited == old(inited)
      ensures var k := FirstCover(old(modules), pattern);
              && (k < |old(modules)| ==>
                    && result == old(modules[k].level.value) && modules == old(modules) && cached == old(cached)
                    && (forall s :: s in old(cached) ==> s.level == old(s.level)))
              && (k == |old(modules)| ==>
                    && result == old(flagV.value) && |modules| > 0 && modules[1..] == old(modules)
                    && modules[0].pattern == pattern && modules[0].level.value == logLevel
                    && Redirected(pattern, modules[0], old(cached)))
      ensures forall m :: m in old(modules) ==>
                m.level.value == if m.pattern == pattern then logLevel else old(m.level.value)
    {
      var found;
      found, result := UpdateLevels(pattern, logLevel);
      if !found {
        AddModule(pattern, logLevel);
      }
    }

    // ---------------------------------------------------------------- the site itself

    /** A site that points to the default agrees with a fresh lookup, whatever ran in between. */
    lemma DefaultAgrees(s: SiteFlag)
      requires Valid() && s in sites && s.level == flagV
      ensures Lookup(modules, flagV, BaseName(s.file)) == flagV
    {
      assert SiteOk(s);
      assert forall i :: 0 <= i < |modules| ==> !ModuleMatches(modules[i], BaseName(s.file));
    }

    /** VLOG_IS_ON: the lookup runs only while the site has no level; otherwise one load decides. */
    method VlogIsOn(site: SiteFlag, verboseLevel: int) returns (on: bool)
      requires Valid()
      requires site in sites || (site.level == null && site.baseName == None)
      modifies this, site
      ensures Valid()
      ensures on == ((if site.level == null then Lookup(modules, flagV, BaseName(site.file)) else site.level).value
                       >= verboseLevel)
      ensures old(site.level) != null ==> site.level == old(site.level) && modules == old(modules) && cached == old(cached)
    {
      if site.level == null {
        on := InitVLOG3(site, verboseLevel);
      } else {
        on := site.level.value >= verboseLevel;
      }
    }
  }

  /** What a new first entry does to fresh lookups. */
  lemma PrependLookup(ms: seq<VModuleInfo>, info: VModuleInfo, default: Level, name: string)
    ensures Lookup([info] + ms, default, name) ==
              if ModuleMatches(info, name) then info.level else Lookup(ms, default, name)
  {
    hide ModuleMatches;
    assert ([info] + ms)[1..] == ms;
  }

  /** A site bound to an entry is not rebound, so after a new entry it still shows what a fresh
      lookup would find just if the new pattern does not match its file. */
  lemma BoundSiteStaysCurrent(ms: seq<VModuleInfo>, info: VModuleInfo, default: Level, site: SiteFlag, bound: Level)
    requires bound == Lookup(ms, default, BaseName(site.file)) && bound != info.level
    ensures bound == Lookup([info] + ms, default, BaseName(site.file)) <==> !SiteMatches(site, info.pattern)
  {
    PrependLookup(ms, info, default, BaseName(site.file));
  }
}

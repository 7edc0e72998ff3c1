/** Searching the tables of an ELF file batch by batch, like one search from the front. */
module Tables {
  import opened Reading

  /** The number in some bytes, the least significant first. */
  function LittleEndian(bytes: string): nat {
    if bytes == "" then 0 else bytes[0] as nat % 256 + 256 * LittleEndian(bytes[1..])
  }

  const WORD: nat := 0x1_0000_0000_0000_0000

  /** The fields of a section header that the symbolizer reads, from its 64 bytes. */
  datatype SectionHeader = SectionHeader(kind: nat, offset: nat, size: nat, link: nat, entrySize: nat)

  function AsHeader(b: string): SectionHeader
    requires |b| == 64
  {
    SectionHeader(LittleEndian(b[4..8]), LittleEndian(b[24..32]), LittleEndian(b[32..40]),
                  LittleEndian(b[40..44]), LittleEndian(b[56..64]))
  }

  function HeaderAt(file: string, table: nat, k: nat): SectionHeader
    requires table + 64 * k + 64 <= |file|
  {
    AsHeader(file[table + 64 * k..table + 64 * k + 64])
  }

  /** The fields of a symbol that the symbolizer reads, from its 24 bytes. */
  datatype Symbol = Symbol(name: nat, section: nat, value: nat, size: nat) {
    /** A defined symbol whose addresses, moved by "offset" in 64 bits, hold "pc". */
    predicate Covers(offset: nat, pc: nat) {
      var start := (value + offset) % WORD;
      value != 0 && section != 0 && start <= pc < (start + size) % WORD
    }
  }

  function AsSymbol(b: string): Symbol
    requires |b| == 24
  {
    Symbol(LittleEndian(b[0..4]), LittleEndian(b[6..8]), LittleEndian(b[8..16]), LittleEndian(b[16..24]))
  }

  function SymbolAt(file: string, table: nat, k: nat): Symbol
    requires table + 24 * k + 24 <= |file|
  {
    AsSymbol(file[table + 24 * k..table + 24 * k + 24])
  }

  /** One linear search: the first header of a kind from "k" on, or the number of headers. */
  function LinearHeader(file: string, table: nat, num: nat, kind: nat, k: nat): (first: nat)
    requires k <= num && table + 64 * num <= |file|
    ensures k <= first <= num && (first < num ==> HeaderAt(file, table, first).kind == kind)
    ensures forall j :: k <= j < first ==> HeaderAt(file, table, j).kind != kind
    decreases num - k
  {
    if k == num || HeaderAt(file, table, k).kind == kind then k else LinearHeader(file, table, num, kind, k + 1)
  }

  /** The first symbol from "k" on that covers the address, or the number of symbols. */
  function LinearSymbol(file: string, table: nat, num: nat, offset: nat, pc: nat, k: nat): (first: nat)
    requires k <= num && table + 24 * num <= |file|
    ensures k <= first <= num && (first < num ==> SymbolAt(file, table, first).Covers(offset, pc))
    ensures forall j :: k <= j < first ==> !SymbolAt(file, table, j).Covers(offset, pc)
    decreases num - k
  {
    if k == num || SymbolAt(file, table, k).Covers(offset, pc) then k
    else LinearSymbol(file, table, num, offset, pc, k + 1)
  }

  // ---------------------------------------------------------------- entries as the format lays them out

  /** A number in so many bytes, the least significant first. */
  function Bytes(v: nat, width: nat): (s: string)
    ensures |s| == width
  {
    if width == 0 then "" else [(v % 256) as char] + Bytes(v / 256, width - 1)
  }

  /** The numbers that fit into so many bytes. */
  function Limit(width: nat): (n: nat)
    ensures n > 0
  {
    if width == 0 then 1 else 256 * Limit(width - 1)
  }

  lemma {:induction false} BytesMean(v: nat, width: nat)
    requires v < Limit(width)
    ensures LittleEndian(Bytes(v, width)) == v
  {
    if width > 0 {
      BytesMean(v / 256, width - 1);
      assert Bytes(v, width)[1..] == Bytes(v / 256, width - 1);
    }
  }

  /** Elf64_Sym, field by field. */
  datatype Elf64Sym = Elf64Sym(st_name: nat, st_info: nat, st_other: nat, st_shndx: nat, st_value: nat, st_size: nat) {
    predicate Fits() {
      && st_name < Limit(4) && st_info < Limit(1) && st_other < Limit(1) && st_shndx < Limit(2)
      && st_value < Limit(8) && st_size < Limit(8)
    }

    function Encoded(): (s: string)
      ensures |s| == 24
    {
      Bytes(st_name, 4) + Bytes(st_info, 1) + Bytes(st_other, 1) + Bytes(st_shndx, 2) + Bytes(st_value, 8) + Bytes(st_size, 8)
    }

    /** The symbol is defined and, loaded at "offset", its addresses hold "pc"; addresses wrap at 64 bits. */
    predicate Holds(offset: nat, pc: nat) {
      && st_value > 0 && st_shndx > 0
      && var first := (st_value + offset) % 0x1_0000_0000_0000_0000;
         pc >= first && pc < (first + st_size) % 0x1_0000_0000_0000_0000
    }
  }

  /** Elf64_Shdr, field by field. */
  datatype Elf64Shdr = Elf64Shdr(sh_name: nat, sh_type: nat, sh_flags: nat, sh_addr: nat, sh_offset: nat, sh_size: nat,
                                 sh_link: nat, sh_info: nat, sh_addralign: nat, sh_entsize: nat)
  {
    predicate Fits() {
      && sh_name < Limit(4) && sh_type < Limit(4) && sh_flags < Limit(8) && sh_addr < Limit(8) && sh_offset < Limit(8)
      && sh_size < Limit(8) && sh_link < Limit(4) && sh_info < Limit(4) && sh_addralign < Limit(8) && sh_entsize < Limit(8)
    }

    function Encoded(): (s: string)
      ensures |s| == 64
    {
      Bytes(sh_name, 4) + Bytes(sh_type, 4) + Bytes(sh_flags, 8) + Bytes(sh_addr, 8) + Bytes(sh_offset, 8) +
      Bytes(sh_size, 8) + Bytes(sh_link, 4) + Bytes(sh_info, 4) + Bytes(sh_addralign, 8) + Bytes(sh_entsize, 8)
    }
  }

  /** Parts of a text that goes on behind them, and its last part. */
  lemma Part(a: string, b: string, lo: nat, hi: nat)
    requires lo <= hi <= |a|
    ensures (a + b)[lo..hi] == a[lo..hi] && (a + b)[|a|..|a + b|] == b
  {
  }

  /** Every field that is read comes back. */
  lemma SymbolIsRead(s: Elf64Sym)
    requires s.Fits()
    ensures AsSymbol(s.Encoded()) == Symbol(s.st_name, s.st_shndx, s.st_value, s.st_size)
  {
    hide Bytes, LittleEndian;
    var name, section, value, size := Bytes(s.st_name, 4), Bytes(s.st_shndx, 2), Bytes(s.st_value, 8), Bytes(s.st_size, 8);
    var p1 := name + Bytes(s.st_info, 1);
    var p2 := p1 + Bytes(s.st_other, 1);
    var p3 := p2 + section;
    var p4 := p3 + value;
    var b := p4 + size;
    Part(name, Bytes(s.st_info, 1), 0, 4);
    Part(p1, Bytes(s.st_other, 1), 0, 4);
    Part(p2, section, 0, 4);
    Part(p3, value, 0, 4);
    Part(p3, value, 6, 8);
    Part(p4, size, 0, 4);
    Part(p4, size, 6, 8);
    Part(p4, size, 8, 16);
    BytesMean(s.st_name, 4);
    BytesMean(s.st_shndx, 2);
    BytesMean(s.st_value, 8);
    BytesMean(s.st_size, 8);
    assert name[0..4] == name;
  }

  lemma HeaderIsRead(h: Elf64Shdr)
    requires h.Fits()
    ensures AsHeader(h.Encoded()) == SectionHeader(h.sh_type, h.sh_offset, h.sh_size, h.sh_link, h.sh_entsize)
  {
    hide Bytes, LittleEndian;
    var p0 := Bytes(h.sh_name, 4);
    var p1 := p0 + Bytes(h.sh_type, 4);
    var p3 := p1 + Bytes(h.sh_flags, 8) + Bytes(h.sh_addr, 8);
    var p4 := p3 + Bytes(h.sh_offset, 8);
    var p5 := p4 + Bytes(h.sh_size, 8);
    var p6 := p5 + Bytes(h.sh_link, 4);
    var p8 := p6 + Bytes(h.sh_info, 4) + Bytes(h.sh_addralign, 8);
    var b := p8 + Bytes(h.sh_entsize, 8);
    Part(p0, Bytes(h.sh_type, 4), 0, 0);
    Part(p1, Bytes(h.sh_flags, 8), 4, 8);
    Part(p1 + Bytes(h.sh_flags, 8), Bytes(h.sh_addr, 8), 4, 8);
    Part(p3, Bytes(h.sh_offset, 8), 4, 8);
    Part(p4, Bytes(h.sh_size, 8), 4, 8);
    Part(p4, Bytes(h.sh_size, 8), 24, 32);
    Part(p5, Bytes(h.sh_link, 4), 4, 8);
    Part(p5, Bytes(h.sh_link, 4), 24, 32);
    Part(p5, Bytes(h.sh_link, 4), 32, 40);
    Parts(p6, Bytes(h.sh_info, 4), Bytes(h.sh_addralign, 8), Bytes(h.sh_entsize, 8));
    BytesMean(h.sh_type, 4);
    BytesMean(h.sh_offset, 8);
    BytesMean(h.sh_size, 8);
    BytesMean(h.sh_link, 4);
    BytesMean(h.sh_entsize, 8);
  }

  lemma Parts(p: string, info: string, align: string, size: string)
    requires |p| == 44 && |info| == 4 && |align| == |size| == 8
    ensures var b := p + info + align + size;
            && b[4..8] == p[4..8] && b[24..32] == p[24..32] && b[32..40] == p[32..40] && b[40..44] == p[40..44]
            && b[56..64] == size
  {
    assert p + info + align + size == p + (info + align + size);
    Part(p, info + align + size, 4, 8);
    Part(p, info + align + size, 24, 32);
    Part(p, info + align + size, 32, 40);
    Part(p, info + align + size, 40, 44);
    Part(p + info + align, size, 0, 0);
  }

  /** The file holds these symbols one after another. */
  ghost predicate HoldsSymbols(file: string, table: nat, syms: seq<Elf64Sym>) {
    && table + 24 * |syms| <= |file|
    && forall k :: 0 <= k < |syms| ==>
         syms[k].Fits() && file[table + 24 * k..table + 24 * k + 24] == syms[k].Encoded()
  }

  ghost predicate HoldsHeaders(file: string, table: nat, headers: seq<Elf64Shdr>) {
    && table + 64 * |headers| <= |file|
    && forall k :: 0 <= k < |headers| ==>
         headers[k].Fits() && file[table + 64 * k..table + 64 * k + 64] == headers[k].Encoded()
  }

  /** The first symbol from "k" on that holds the address, or how many there are. */
  function FirstHolding(syms: seq<Elf64Sym>, offset: nat, pc: nat, k: nat): (first: nat)
    requires k <= |syms|
    ensures k <= first <= |syms|
    decreases |syms| - k
  {
    if k == |syms| || syms[k].Holds(offset, pc) then k else FirstHolding(syms, offset, pc, k + 1)
  }

  function FirstOfType(headers: seq<Elf64Shdr>, kind: nat, k: nat): (first: nat)
    requires k <= |headers|
    ensures k <= first <= |headers|
    decreases |headers| - k
  {
    if k == |headers| || headers[k].sh_type == kind then k else FirstOfType(headers, kind, k + 1)
  }

  lemma {:induction false} SymbolsAreSearched(file: string, table: nat, syms: seq<Elf64Sym>, offset: nat, pc: nat, k: nat)
    requires HoldsSymbols(file, table, syms) && k <= |syms|
    ensures LinearSymbol(file, table, |syms|, offset, pc, k) == FirstHolding(syms, offset, pc, k)
    ensures forall j :: 0 <= j < |syms| ==>
              SymbolAt(file, table, j) == Symbol(syms[j].st_name, syms[j].st_shndx, syms[j].st_value, syms[j].st_size)
    decreases |syms| - k
  {
    hide AsSymbol, Elf64Sym.Encoded, Elf64Sym.Fits;
    forall j | 0 <= j < |syms|
      ensures SymbolAt(file, table, j) == Symbol(syms[j].st_name, syms[j].st_shndx, syms[j].st_value, syms[j].st_size)
    {
      SymbolIsRead(syms[j]);
    }
    if k < |syms| { SymbolsAreSearched(file, table, syms, offset, pc, k + 1); }
  }

  lemma {:induction false} HeadersAreSearched(file: string, table: nat, headers: seq<Elf64Shdr>, kind: nat, k: nat)
    requires HoldsHeaders(file, table, headers) && k <= |headers|
    ensures LinearHeader(file, table, |headers|, kind, k) == FirstOfType(headers, kind, k)
    ensures forall j :: 0 <= j < |headers| ==> IsHeader(HeaderAt(file, table, j), headers[j])
    decreases |headers| - k
  {
    hide AsHeader, Elf64Shdr.Encoded, Elf64Shdr.Fits;
    forall j | 0 <= j < |headers| ensures IsHeader(HeaderAt(file, table, j), headers[j]) { HeaderIsRead(headers[j]); }
    if k < |headers| { HeadersAreSearched(file, table, headers, kind, k + 1); }
  }

  predicate IsHeader(found: SectionHeader, h: Elf64Shdr) {
    found == SectionHeader(h.sh_type, h.sh_offset, h.sh_size, h.sh_link, h.sh_entsize)
  }

  /** A slice of a slice, where the inner one lies in the whole. */
  lemma SliceOfSlice(file: string, from: nat, bytes: string, at: nat, size: nat)
    requires from + |bytes| <= |file| && bytes == file[from..from + |bytes|] && at + size <= |bytes|
    ensures bytes[at..at + size] == file[from + at..from + at + size]
  {
    var inner, outer := bytes[at..at + size], file[from + at..from + at + size];
    forall k | 0 <= k < size ensures inner[k] == outer[k] {
      assert bytes[at + k] == file[from + (at + k)];
    }
    assert inner == outer;
  }

  /** The first header of a kind among those in the buffer. */
  method ScanHeaders(buf: array<char>, headers: nat, kind: nat, ghost file: string, ghost table: nat, ghost i: nat)
    returns (j: nat, header: SectionHeader)
    requires 64 * headers <= buf.Length && table + 64 * (i + headers) <= |file|
    requires buf[..64 * headers] == file[table + 64 * i..table + 64 * (i + headers)]
    ensures j <= headers && (j < headers ==> header == HeaderAt(file, table, i + j) && header.kind == kind)
    ensures forall k :: i <= k < i + j ==> HeaderAt(file, table, k).kind != kind
  {
    hide AsHeader;
    j := 0;
    ghost var bytes := buf[..64 * headers];
    while j < headers
      invariant j <= headers
      invariant forall k :: i <= k < i + j ==> HeaderAt(file, table, k).kind != kind
    {
      header := AsHeader(buf[64 * j..64 * j + 64]);
      assert buf[64 * j..64 * j + 64] == bytes[64 * j..64 * j + 64];
      SliceOfSlice(file, table + 64 * i, bytes, 64 * j, 64);
      if header.kind == kind { return; }
      j := j + 1;
    }
    header := SectionHeader(0, 0, 0, 0, 0);
  }

  /** What a read of "n" bytes that are there leaves in the buffer. */
  lemma Batch(buf: array<char>, file: string, offset: nat, n: nat)
    requires Holds(buf, 0, From(file, offset)[..Min(n, |From(file, offset)|)]) && offset + n <= |file|
    ensures n <= buf.Length && buf[..n] == file[offset..offset + n]
  {
    var text := From(file, offset);
    assert text[..Min(n, |text|)] == file[offset..offset + n];
    forall k | 0 <= k < n ensures buf[..n][k] == file[offset..offset + n][k] {
      assert text[..Min(n, |text|)][k] == buf[k];
    }
  }

  ghost predicate AnswersHeader(headers: seq<Elf64Shdr>, kind: nat, found: bool, out: SectionHeader) {
    var k := FirstOfType(headers, kind, 0);
    found == (k < |headers|) && (found ==> IsHeader(out, headers[k]))
  }

  lemma HeaderAnswers(file: string, table: nat, num: nat, kind: nat, found: bool, out: SectionHeader)
    requires table + 64 * num <= |file|
    requires var first := LinearHeader(file, table, num, kind, 0);
             found == (first < num) && (found ==> out == HeaderAt(file, table, first))
    ensures forall headers :: HoldsHeaders(file, table, headers) && |headers| == num ==>
              AnswersHeader(headers, kind, found, out)
  {
    hide HeaderAt, LinearHeader, HoldsHeaders, FirstOfType, IsHeader;
    forall headers | HoldsHeaders(file, table, headers) && |headers| == num
      ensures AnswersHeader(headers, kind, found, out)
    {
      HeadersAreSearched(file, table, headers, kind, 0);
    }
  }

  /** The header of the first section of a kind, whatever the batches and however short the reads. */
  method GetSectionHeaderByType(file: string, num: nat, table: nat, kind: nat)
    returns (found: bool, out: SectionHeader)
    requires table + 64 * num <= |file|
    ensures var first := LinearHeader(file, table, num, kind, 0);
            found == (first < num) && (found ==> out == HeaderAt(file, table, first))
    ensures forall headers :: HoldsHeaders(file, table, headers) && |headers| == num ==>
              AnswersHeader(headers, kind, found, out)
  {
    hide HeaderAt, LinearHeader, HoldsHeaders, AnswersHeader;
    var buf := new char[1024];
    var i := 0;
    while i < num
      invariant i <= num
      invariant forall k :: 0 <= k < i ==> HeaderAt(file, table, k).kind != kind
    {
      var left := (num - i) * 64;
      var len := ReadFromOffset(file, buf, 0, if 1024 > left then left else 1024, table + i * 64);
      var headers := len / 64;
      Batch(buf, file, table + i * 64, len);
      var j;
      j, out := ScanHeaders(buf, headers, kind, file, table, i);
      if j < headers {
        HeaderAnswers(file, table, num, kind, true, out);
        return true, out;
      }
      i := i + headers;
    }
    found, out := false, SectionHeader(0, 0, 0, 0, 0);
    HeaderAnswers(file, table, num, kind, false, out);
  }

  /** The first symbol among those in the buffer that covers the address. */
  method ScanSymbols(buf: array<char>, symbols: nat, offset: nat, pc: nat, ghost file: string, ghost table: nat, ghost i: nat)
    returns (j: nat, symbol: Symbol)
    requires 24 * symbols <= buf.Length && table + 24 * (i + symbols) <= |file|
    requires buf[..24 * symbols] == file[table + 24 * i..table + 24 * (i + symbols)]
    ensures j <= symbols && (j < symbols ==> symbol == SymbolAt(file, table, i + j) && symbol.Covers(offset, pc))
    ensures forall k :: i <= k < i + j ==> !SymbolAt(file, table, k).Covers(offset, pc)
  {
    hide AsSymbol, Symbol.Covers;
    j := 0;
    ghost var bytes := buf[..24 * symbols];
    while j < symbols
      invariant j <= symbols
      invariant forall k :: i <= k < i + j ==> !SymbolAt(file, table, k).Covers(offset, pc)
    {
      symbol := AsSymbol(buf[24 * j..24 * j + 24]);
      assert buf[24 * j..24 * j + 24] == bytes[24 * j..24 * j + 24];
      SliceOfSlice(file, table + 24 * i, bytes, 24 * j, 24);
      if symbol.Covers(offset, pc) { return; }
      j := j + 1;
    }
    symbol := Symbol(0, 0, 0, 0);
  }

  ghost predicate AnswersSymbol(syms: seq<Elf64Sym>, offset: nat, pc: nat, found: bool, symbol: Symbol) {
    var k := FirstHolding(syms, offset, pc, 0);
    && found == (k < |syms|)
    && (found ==> symbol == Symbol(syms[k].st_name, syms[k].st_shndx, syms[k].st_value, syms[k].st_size))
  }

  lemma SymbolIsFirst(file: string, table: nat, num: nat, offset: nat, pc: nat, found: bool, symbol: Symbol)
    requires table + 24 * num <= |file|
    requires var first := LinearSymbol(file, table, num, offset, pc, 0);
             found == (first < num) && (found ==> symbol == SymbolAt(file, table, first))
    ensures forall syms :: HoldsSymbols(file, table, syms) && |syms| == num ==>
              AnswersSymbol(syms, offset, pc, found, symbol)
  {
    hide SymbolAt, LinearSymbol, HoldsSymbols, FirstHolding;
    forall syms | HoldsSymbols(file, table, syms) && |syms| == num
      ensures AnswersSymbol(syms, offset, pc, found, symbol)
    {
      SymbolsAreSearched(file, table, syms, offset, pc, 0);
    }
  }

  /** The first symbol of the table that covers the address. */
  method SearchSymbols(file: string, table: nat, num: nat, offset: nat, pc: nat)
    returns (found: bool, symbol: Symbol)
    requires table + 24 * num <= |file|
    ensures var first := LinearSymbol(file, table, num, offset, pc, 0);
            found == (first < num) && (found ==> symbol == SymbolAt(file, table, first))
    ensures forall syms :: HoldsSymbols(file, table, syms) && |syms| == num ==>
              AnswersSymbol(syms, offset, pc, found, symbol)
  {
    hide SymbolAt, Symbol.Covers, LinearSymbol, HoldsSymbols, AnswersSymbol;
    var buf := new char[768];
    var i := 0;
    while i < num
      invariant i <= num
      invariant forall k :: 0 <= k < i ==> !SymbolAt(file, table, k).Covers(offset, pc)
    {
      var len := ReadFromOffset(file, buf, 0, 24 * Min(32, num - i), table + i * 24);
      var symbols := len / 24;
      Batch(buf, file, table + i * 24, len);
      var j;
      j, symbol := ScanSymbols(buf, symbols, offset, pc, file, table, i);
      if j < symbols {
        SymbolIsFirst(file, table, num, offset, pc, true, symbol);
        return true, symbol;
      }
      i := i + symbols;
    }
    found, symbol := false, Symbol(0, 0, 0, 0);
    SymbolIsFirst(file, table, num, offset, pc, false, symbol);
  }

  /** What a search in the file leaves in a buffer that held "before". */
  ghost predicate Answered(file: string, table: nat, num: nat, names: nat, offset: nat, pc: nat, ok: bool,
                           before: string, after: string)
    requires table + 24 * num <= |file|
  {
    var first := LinearSymbol(file, table, num, offset, pc, 0);
    if first == num then !ok && after == before
    else Named(file, names + SymbolAt(file, table, first).name, ok, before, after)
  }

  /** The text at a place of the file is in the buffer if its end is, else the buffer is cleared. */
  ghost predicate Named(file: string, at: nat, ok: bool, before: string, after: string) {
    var name := From(file, at);
    var n := Min(|before|, |name|);
    var text := name[..n] + before[n..];
    && ok == (n > 0 && '\0' in text)
    && if ok then after == text else |after| == |before| && forall k :: 0 <= k < |after| ==> after[k] == '\0'
  }

  /** The same for the symbols that the file holds. */
  ghost predicate AnsweredBy(file: string, syms: seq<Elf64Sym>, names: nat, offset: nat, pc: nat, ok: bool,
                             before: string, after: string)
  {
    var k := FirstHolding(syms, offset, pc, 0);
    if k == |syms| then !ok && after == before else Named(file, names + syms[k].st_name, ok, before, after)
  }

  lemma SymbolAnswers(file: string, table: nat, num: nat, names: nat, offset: nat, pc: nat, ok: bool,
                      before: string, after: string)
    requires table + 24 * num <= |file| && Answered(file, table, num, names, offset, pc, ok, before, after)
    ensures forall syms :: HoldsSymbols(file, table, syms) && |syms| == num ==>
              AnsweredBy(file, syms, names, offset, pc, ok, before, after)
  {
    hide SymbolAt, LinearSymbol, HoldsSymbols, FirstHolding, Named;
    forall syms | HoldsSymbols(file, table, syms) && |syms| == num
      ensures AnsweredBy(file, syms, names, offset, pc, ok, before, after)
    {
      SymbolsAreSearched(file, table, syms, offset, pc, 0);
    }
  }

  /** The name of the first symbol that covers the address; no name when its text has no end in the buffer. */
  method FindSymbol(file: string, symtab: SectionHeader, strtab: SectionHeader, offset: nat, pc: nat, out: array<char>)
    returns (ok: bool)
    requires symtab.entrySize == 24 && symtab.offset + symtab.size <= |file|
    modifies out
    ensures Answered(file, symtab.offset, symtab.size / 24, strtab.offset, offset, pc, ok, old(out[..]), out[..])
    ensures forall syms :: HoldsSymbols(file, symtab.offset, syms) && |syms| == symtab.size / 24 ==>
              AnsweredBy(file, syms, strtab.offset, offset, pc, ok, old(out[..]), out[..])
  {
    hide SymbolAt, Symbol.Covers, LinearSymbol, HoldsSymbols, AnsweredBy, AnswersSymbol;
    var num := symtab.size / symtab.entrySize;
    var symbol;
    ok, symbol := SearchSymbols(file, symtab.offset, num, offset, pc);
    if ok {
      var len := ReadFromOffset(file, out, 0, out.Length, strtab.offset + symbol.name);
      assert out[..] == From(file, strtab.offset + symbol.name)[..len] + old(out[len..]);
      if len == 0 || '\0' !in out[..] {
        forall k | 0 <= k < out.Length { out[k] := '\0'; }
        ok := false;
      }
      assert old(out[..])[len..] == old(out[len..]);
    }
    SymbolAnswers(file, symtab.offset, num, strtab.offset, offset, pc, ok, old(out[..]), out[..]);
  }
}

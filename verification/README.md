# A verified model of glog's algorithmic core

This project models the parts of glog that are algorithms rather than plumbing, and proves what they
promise. `dafny verify dfyconfig.toml` checks all of it.

**The demangler** (`CText`, `Tape`, `Output`, `Recogniser`, `Snapshots`, `Faithful`, `Demangle`, `DemangleCases`,
`DemangleData`, `DemangleProperties`, `DemangleRoom`, `DemangleStray`, `Mangling`, `DemangleReads`, `MangledParts`,
`MangledNames`, `MangledSymbols`). glog prints stack traces with its own
backtracking parser for the mangling grammar of section 5.1 of the Itanium C++ ABI. `Recogniser` is the whole grammar
as pure functions of the text, a position and three recursion budgets; each function also returns a trace of output
actions, including those of abandoned attempts. `Output` runs a trace on an ideal text with unbounded room and, beside
it, on `Tape`, the buffer byte by byte as the source fills it. `Demangle.State` is the parser as it is: one mutable
object, copied and restored, printing into a fixed array that is not rolled back. Every parsing method is proved to
follow its recogniser function from every valid state, to the last field and byte, so acceptance cannot depend on
output, the recursion terminates, and failures restore what they must. `Faithful` relates buffer and ideal text over
every trace: a text that does not fit is never answered with true, and when no append was clipped the buffer shows the
ideal text. `DemangleRoom` bounds what a name can print by its length, so a caller can choose a buffer in which
nothing is clipped. `DemangleCases`, `DemangleData` and `DemangleStray` work out whole names from the grammar.
`Mangling` is the other side, written without the parser: C++ types, names and symbols as terms, how each is written,
and how it is to be shown. `DemangleReads` says how the grammar's alternatives and sequences read when their parts do,
and `MangledParts`, `MangledNames` and `MangledSymbols` prove over all terms that what is written is accepted to its
last character and shown so.

**The VLOG cache** (`Glob`, `VLog`). Log sites cache a pointer to the level that controls them; sites at the default
level are threaded on a list that `SetVLOGLevel` edits in place. The lists are linked objects. The invariant kept by
every locked operation, in any order and by any threads, is that a site is on the list just if it points to the
default, and that a fresh lookup then agrees. The pattern matcher is compared with the glob relation, and it is shown
exactly where the two differ.

**The symbolizer** (`Reading`, `Tables`, `Numbers`). A line reader over one fixed buffer against splitting the file,
batched ELF table scans against one linear search, and a number printer with an in-place reversal against the
hexadecimal reader.

**Log files** (`LogFile`, `Truncate`, `LogNames`, `LogNameAgreement`, `Shell`). The byte counters of a log file in
machine integers against an unbounded step function and its invariants over all runs, in-place truncation by an
overlapping copy, the names made against the names the cleaner recognises, and shell quoting against the shell's
reading as in section 2.2 of the POSIX Shell Command Language.

**LOG_FIRST_N** (`FirstN`). The counter protocol as interleaved atomic accesses of any number of threads.

## Where the code differs from its own description

- The demangler's comment (`src/demangle.cc:425-431`) says that a failing function changes nothing. `ParseNumber`,
  `ParseAbiTag` and `ParseMangledName` may keep what they read, so the tag loop swallows a `B` that starts no tag
  (`DemangleProperties.TagLoopSwallowsB`, `DanglingTag`); template arguments, expressions and local names leave their
  level one higher; and `st type` leaves it raised even on success, because the statement that steps it back stands
  behind the return (`src/demangle.cc:1180-1183`, `DemangleProperties.SizeofLeavesLevel`, on `sti` by `RaisedLevel`).
- Output is said to be always terminated (`src/demangle.cc:228-230`). `_Z0` is accepted and writes nothing
  (`DemangleCases.EmptyName`); of `_ZcvZ0Es` a terminator is written, but behind what an abandoned attempt left
  (`DemangleCases.LeftoverText`), and of `_ZZ0Es` only such a leftover is there (`DemangleData.LocalLeftover`). A data
  name of one word is terminated if and only if it prints (`DemangleData.UnscopedDataIsSealed`), a bare source name so if
  and only if its length is not zero (`DemangleCases.BareSourceIsSealed`), a nested data name if and only if it has a
  component (`DemangleCases.NestedDataIsSealed`), and a name with a signature, or an unscoped one with template
  arguments at its end, always (`DemangleProperties.FunctionsAreTerminated`, `DemangleData.TemplateDataIsSealed`).
- A name can be refused although its text fits: a separator that is taken back needs room too. A nested name of source
  names is refused by exactly the buffers with no more than two bytes beyond its text
  (`DemangleData.PathNeedsTwoMore`), any nested data name by these at least (`DemangleData.NestedDataNeedsRoom`).
- A remembered name is repeated from where it lies in the buffer (`src/demangle.cc:871-873`). When it was clipped, that
  may read memory behind the buffer: `_ZTVMN3fooC1EC1` with three bytes does (`DemangleStray.ReadsBehindTheBuffer`). A
  run in which nothing was clipped reads only what it printed (`Faithful.UnclippedShows`).
- The pattern matcher misses matches of patterns ending in `**` and of texts with a `*`
  (`Glob.PatternConditionIsExact`, `Glob.TextConditionIsExact`).
- Template arguments are to be refused when they are nested too deep (`src/demangle.cc:1100-1106`). The level of a list
  is not given back when the attempt to read one more argument fails, so it is the number of lists, in whatever order
  and depth, that must not exceed six (`MangledSymbols.MangledIsRead`, `SeventhListIsRefused`).
- LOG_FIRST_N can log fewer than n messages, one fewer for every further thread, down to none
  (`FirstN.BoundIsReached`).
- The log cleaner misses its own files when the chosen base name has a doubled slash, the extension has a slash or
  repeats the start of the stamp (`LogNameAgreement.ChosenNameAgreement`), and takes unfinished names
  (`LogNameAgreement.UnfinishedNamesPass`).
- `TruncateLogFile` empties the file when the number of bytes to keep is no valid offset.

## Model

| member | source | states |
|---|---|---|
| Demangle.Demangle | src/demangle.cc:1368-1370 | for every NUL-terminated name, every buffer and whatever memory lies behind it: the answer is true exactly when the recogniser accepts the name and the run of its trace on that buffer ends without overflow, and the buffer then holds that run's bytes. For every buffer, an accepted text without the spaces that part two '<' is shorter than the buffer, so no text that does not fit is answered with true, and a terminator follows it if one follows the ideal text. When no append was clipped, abandoned ones included, the answer depends on the name alone and the buffer shows exactly the ideal text; more than n * (n + 41) bytes ensure that for a name of n characters, its terminator included. In such a buffer, for every symbol that the terms of `Mangling` build, global or local, with a clone's suffix or a version behind it: of how it is written the answer is true, and the buffer is the C string that it is to be shown as |
| Demangle.State.ParseTopLevelMangledName | src/demangle.cc:1315-1333 | accepts exactly what `Recogniser.TopLevel` accepts and leaves every field and every byte of the buffer as the run of its trace does, clipped or not |
| Demangle.State.constructor | src/demangle.cc:150-164 | a fresh state reads from the start with all budgets 0, an empty ideal text and the buffer as it is |
| Recogniser.SourceName | src/demangle.cc:572-580 | a length and that many characters: on success at least one character is read, on failure the position and all three budgets are those of entry and no output remains; budgets never fall below entry or rise above 6 on the way |
| Demangle.State.ParseSourceName | src/demangle.cc:572-580 | acceptance, characters read and budgets are those of `Recogniser.SourceName` on the remaining text and budgets, not of any output field; every output field and every byte of the buffer is that of the run of its trace, overflow included; append and nest level are as on entry |
| Recogniser.Discriminator | src/demangle.cc:1268-1275 | _ number: on success at least one character is read, on failure the position and all three budgets are those of entry and no output remains; budgets never fall below entry or rise above 6 on the way; never prints |
| Demangle.State.ParseDiscriminator | src/demangle.cc:1268-1275 | acceptance, characters read and budgets are those of `Recogniser.Discriminator` on the remaining text and budgets, not of any output field; every output field and every byte of the buffer is that of the run of its trace, overflow included; append and nest level are as on entry |
| Recogniser.LocalSourceName | src/demangle.cc:587-595 | L source-name [discriminator]: on success at least one character is read, on failure the position and all three budgets are those of entry and no output remains; budgets never fall below entry or rise above 6 on the way |
| Demangle.State.ParseLocalSourceName | src/demangle.cc:587-595 | acceptance, characters read and budgets are those of `Recogniser.LocalSourceName` on the remaining text and budgets, not of any output field; every output field and every byte of the buffer is that of the run of its trace, overflow included; append and nest level are as on entry |
| Recogniser.AbiTag | src/demangle.cc:702-704 | B source-name: on success at least one character is read; on failure no output remains but the position may have moved (the source does not put it back) |
| Demangle.State.ParseAbiTag | src/demangle.cc:702-704 | acceptance, characters read and budgets are those of `Recogniser.AbiTag` on the remaining text and budgets, not of any output field; every output field and every byte of the buffer is that of the run of its trace, overflow included; append and nest level are as on entry |
| Recogniser.AbiTags | src/demangle.cc:690-699 | one or more tags, read with append off: on success at least one character is read, on failure the position and all three budgets are those of entry and no output remains; budgets never fall below entry or rise above 6 on the way |
| Demangle.State.ParseAbiTags | src/demangle.cc:690-699 | acceptance, characters read and budgets are those of `Recogniser.AbiTags` on the remaining text and budgets, not of any output field; every output field and every byte of the buffer is that of the run of its trace, overflow included; append and nest level are as on entry |
| Recogniser.VOffset | src/demangle.cc:855-863 | number _ number: on success at least one character is read, on failure the position and all three budgets are those of entry and no output remains; budgets never fall below entry or rise above 6 on the way; never prints |
| Demangle.State.ParseVOffset | src/demangle.cc:855-863 | acceptance, characters read and budgets are those of `Recogniser.VOffset` on the remaining text and budgets, not of any output field; every output field and every byte of the buffer is that of the run of its trace, overflow included; append and nest level are as on entry |
| Recogniser.ThisOffset | src/demangle.cc:836-840 | h number _: on success at least one character is read, on failure the position and all three budgets are those of entry and no output remains; budgets never fall below entry or rise above 6 on the way; never prints |
| Demangle.State.ParseThisOffset | src/demangle.cc:836-840 | acceptance, characters read and budgets are those of `Recogniser.ThisOffset` on the remaining text and budgets, not of any output field; every output field and every byte of the buffer is that of the run of its trace, overflow included; append and nest level are as on entry |
| Recogniser.VirtualOffset | src/demangle.cc:842-846 | v number _ number _: on success at least one character is read, on failure the position and all three budgets are those of entry and no output remains; budgets never fall below entry or rise above 6 on the way; never prints |
| Demangle.State.ParseVirtualOffset | src/demangle.cc:842-846 | acceptance, characters read and budgets are those of `Recogniser.VirtualOffset` on the remaining text and budgets, not of any output field; every output field and every byte of the buffer is that of the run of its trace, overflow included; append and nest level are as on entry |
| Recogniser.CallOffset | src/demangle.cc:834-849 | either kind of offset: on success at least one character is read, on failure the position and all three budgets are those of entry and no output remains; budgets never fall below entry or rise above 6 on the way; never prints |
| Demangle.State.ParseCallOffset | src/demangle.cc:834-849 | acceptance, characters read and budgets are those of `Recogniser.CallOffset` on the remaining text and budgets, not of any output field; every output field and every byte of the buffer is that of the run of its trace, overflow included; append and nest level are as on entry |
| Recogniser.CtorName | src/demangle.cc:869-876 | C1, C2, C3: the remembered name again: on success at least one character is read, on failure the position and all three budgets are those of entry and no output remains; budgets never fall below entry or rise above 6 on the way |
| Demangle.State.ParseCtorName | src/demangle.cc:869-876 | acceptance, characters read and budgets are those of `Recogniser.CtorName` on the remaining text and budgets, not of any output field; every output field and every byte of the buffer is that of the run of its trace, overflow included; append and nest level are as on entry |
| Recogniser.DtorName | src/demangle.cc:878-886 | D0, D1, D2: "~" and the remembered name: on success at least one character is read, on failure the position and all three budgets are those of entry and no output remains; budgets never fall below entry or rise above 6 on the way |
| Demangle.State.ParseDtorName | src/demangle.cc:878-886 | acceptance, characters read and budgets are those of `Recogniser.DtorName` on the remaining text and budgets, not of any output field; every output field and every byte of the buffer is that of the run of its trace, overflow included; append and nest level are as on entry |
| Recogniser.CtorDtorName | src/demangle.cc:867-888 | constructor or destructor: on success at least one character is read, on failure the position and all three budgets are those of entry and no output remains; budgets never fall below entry or rise above 6 on the way |
| Demangle.State.ParseCtorDtorName | src/demangle.cc:867-888 | acceptance, characters read and budgets are those of `Recogniser.CtorDtorName` on the remaining text and budgets, not of any output field; every output field and every byte of the buffer is that of the run of its trace, overflow included; append and nest level are as on entry |
| Recogniser.CVQualifiers | src/demangle.cc:966-972 | any of r, V, K in this order, one at least: on success at least one character is read, on failure the position and all three budgets are those of entry and no output remains; budgets never fall below entry or rise above 6 on the way; never prints |
| Demangle.State.ParseCVQualifiers | src/demangle.cc:966-972 | acceptance, characters read and budgets are those of `Recogniser.CVQualifiers` on the remaining text and budgets, not of any output field; every output field and every byte of the buffer is that of the run of its trace, overflow included; append and nest level are as on entry |
| Recogniser.BuiltinType | src/demangle.cc:976-992 | a letter of the table, or u source-name: on success at least one character is read, on failure the position and all three budgets are those of entry and no output remains; budgets never fall below entry or rise above 6 on the way |
| Demangle.State.ParseBuiltinType | src/demangle.cc:976-992 | acceptance, characters read and budgets are those of `Recogniser.BuiltinType` on the remaining text and budgets, not of any output field; every output field and every byte of the buffer is that of the run of its trace, overflow included; append and nest level are as on entry |
| Recogniser.TemplateParam | src/demangle.cc:1055-1069 | T_ or T number _: on success at least one character is read, on failure the position and all three budgets are those of entry and no output remains; budgets never fall below entry or rise above 6 on the way |
| Demangle.State.ParseTemplateParam | src/demangle.cc:1055-1069 | acceptance, characters read and budgets are those of `Recogniser.TemplateParam` on the remaining text and budgets, not of any output field; every output field and every byte of the buffer is that of the run of its trace, overflow included; append and nest level are as on entry |
| Recogniser.NumberedSubstitution | src/demangle.cc:1281-1292 | S_ or S seq-id _: on success at least one character is read, on failure the position and all three budgets are those of entry and no output remains; budgets never fall below entry or rise above 6 on the way |
| Demangle.State.ParseNumberedSubstitution | src/demangle.cc:1281-1292 | acceptance, characters read and budgets are those of `Recogniser.NumberedSubstitution` on the remaining text and budgets, not of any output field; every output field and every byte of the buffer is that of the run of its trace, overflow included; append and nest level are as on entry |
| Recogniser.StdSubstitution | src/demangle.cc:1295-1309 | St, Sa, Sb, ... by the table: on success at least one character is read, on failure the position and all three budgets are those of entry and no output remains; budgets never fall below entry or rise above 6 on the way |
| Demangle.State.ParseStdSubstitution | src/demangle.cc:1295-1309 | acceptance, characters read and budgets are those of `Recogniser.StdSubstitution` on the remaining text and budgets, not of any output field; every output field and every byte of the buffer is that of the run of its trace, overflow included; append and nest level are as on entry |
| Recogniser.Substitution | src/demangle.cc:1280-1311 | numbered or standard substitution: on success at least one character is read, on failure the position and all three budgets are those of entry and no output remains; budgets never fall below entry or rise above 6 on the way |
| Demangle.State.ParseSubstitution | src/demangle.cc:1280-1311 | acceptance, characters read and budgets are those of `Recogniser.Substitution` on the remaining text and budgets, not of any output field; every output field and every byte of the buffer is that of the run of its trace, overflow included; append and nest level are as on entry |
| Recogniser.TemplateTemplateParam | src/demangle.cc:1074-1077 | template parameter or substitution: on success at least one character is read, on failure the position and all three budgets are those of entry and no output remains; budgets never fall below entry or rise above 6 on the way |
| Demangle.State.ParseTemplateTemplateParam | src/demangle.cc:1074-1077 | acceptance, characters read and budgets are those of `Recogniser.TemplateTemplateParam` on the remaining text and budgets, not of any output field; every output field and every byte of the buffer is that of the run of its trace, overflow included; append and nest level are as on entry |
| Recogniser.MangledName | src/demangle.cc:446-448 | _Z encoding: on success at least one character is read; on failure no output remains but the position may have moved (the source does not put it back) |
| Demangle.State.ParseMangledName | src/demangle.cc:446-448 | acceptance, characters read and budgets are those of `Recogniser.MangledName` on the remaining text and budgets, not of any output field; every output field and every byte of the buffer is that of the run of its trace, overflow included; append and nest level are as on entry |
| Recogniser.Encoding | src/demangle.cc:453-464 | name with signature, else name, else special name: on success at least one character is read, on failure the position is that of entry and no output remains, while a budget that an inner failure left raised stays raised, up to 6 |
| Demangle.State.ParseEncoding | src/demangle.cc:453-464 | acceptance, characters read and budgets are those of `Recogniser.Encoding` on the remaining text and budgets, not of any output field; every output field and every byte of the buffer is that of the run of its trace, overflow included; append and nest level are as on entry |
| Recogniser.Name | src/demangle.cc:470-487 | nested, local, template or unscoped name, greediest first: on success at least one character is read, on failure the position is that of entry and no output remains, while a budget that an inner failure left raised stays raised, up to 6 |
| Demangle.State.ParseName | src/demangle.cc:470-487 | acceptance, characters read and budgets are those of `Recogniser.Name` on the remaining text and budgets, not of any output field; every output field and every byte of the buffer is that of the run of its trace, overflow included; append and nest level are as on entry |
| Recogniser.UnscopedName | src/demangle.cc:491-504 | unqualified name, or St and one: on success at least one character is read, on failure the position is that of entry and no output remains, while a budget that an inner failure left raised stays raised, up to 6 |
| Demangle.State.ParseUnscopedName | src/demangle.cc:491-504 | acceptance, characters read and budgets are those of `Recogniser.UnscopedName` on the remaining text and budgets, not of any output field; every output field and every byte of the buffer is that of the run of its trace, overflow included; append and nest level are as on entry |
| Recogniser.UnscopedTemplateName | src/demangle.cc:508-510 | unscoped name or substitution: on success at least one character is read, on failure the position is that of entry and no output remains, while a budget that an inner failure left raised stays raised, up to 6 |
| Demangle.State.ParseUnscopedTemplateName | src/demangle.cc:508-510 | acceptance, characters read and budgets are those of `Recogniser.UnscopedTemplateName` on the remaining text and budgets, not of any output field; every output field and every byte of the buffer is that of the run of its trace, overflow included; append and nest level are as on entry |
| Recogniser.NestedName | src/demangle.cc:514-526 | N [qualifiers] prefix E, inside one more nesting: on success at least one character is read, on failure the position and all three budgets are those of entry and no output remains; budgets never fall below entry or rise above 6 on the way |
| Demangle.State.ParseNestedName | src/demangle.cc:514-526 | acceptance, characters read and budgets are those of `Recogniser.NestedName` on the remaining text and budgets, not of any output field; every output field and every byte of the buffer is that of the run of its trace, overflow included; append and nest level are as on entry |
| Recogniser.PrefixPart | src/demangle.cc:543-545 | template parameter, substitution or unscoped name: on success at least one character is read, on failure the position is that of entry and no output remains, while a budget that an inner failure left raised stays raised, up to 6 |
| Demangle.State.ParsePrefixPart | src/demangle.cc:543-545 | acceptance, characters read and budgets are those of `Recogniser.PrefixPart` on the remaining text and budgets, not of any output field; every output field and every byte of the buffer is that of the run of its trace, overflow included; append and nest level are as on entry |
| Recogniser.UnqualifiedName | src/demangle.cc:564-569 | operator, constructor or destructor, source name or local source name with tags: on success at least one character is read, on failure the position is that of entry and no output remains, while a budget that an inner failure left raised stays raised, up to 6 |
| Demangle.State.ParseUnqualifiedName | src/demangle.cc:564-569 | acceptance, characters read and budgets are those of `Recogniser.UnqualifiedName` on the remaining text and budgets, not of any output field; every output field and every byte of the buffer is that of the run of its trace, overflow included; append and nest level are as on entry |
| Recogniser.OperatorName | src/demangle.cc:709-752 | conversion, vendor operator or a two-letter operator: on success at least one character is read, on failure the position and all three budgets are those of entry and no output remains; budgets never fall below entry or rise above 6 on the way |
| Demangle.State.ParseOperatorName | src/demangle.cc:709-752 | acceptance, characters read and budgets are those of `Recogniser.OperatorName` on the remaining text and budgets, not of any output field; every output field and every byte of the buffer is that of the run of its trace, overflow included; append and nest level are as on entry |
| Recogniser.Conversion | src/demangle.cc:715-722 | cv type, printed inside a nesting of its own: on success at least one character is read, on failure the position and all three budgets are those of entry and no output remains; budgets never fall below entry or rise above 6 on the way |
| Demangle.State.ParseConversion | src/demangle.cc:715-722 | acceptance, characters read and budgets are those of `Recogniser.Conversion` on the remaining text and budgets, not of any output field; every output field and every byte of the buffer is that of the run of its trace, overflow included; append and nest level are as on entry |
| Recogniser.VendorOperator | src/demangle.cc:725-729 | v digit source-name: on success at least one character is read, on failure the position and all three budgets are those of entry and no output remains; budgets never fall below entry or rise above 6 on the way |
| Demangle.State.ParseVendorOperator | src/demangle.cc:725-729 | acceptance, characters read and budgets are those of `Recogniser.VendorOperator` on the remaining text and budgets, not of any output field; every output field and every byte of the buffer is that of the run of its trace, overflow included; append and nest level are as on entry |
| Recogniser.PlainOperator | src/demangle.cc:733-751 | a two-letter operator by the table: on success at least one character is read, on failure the position and all three budgets are those of entry and no output remains; budgets never fall below entry or rise above 6 on the way |
| Demangle.State.ParsePlainOperator | src/demangle.cc:733-751 | acceptance, characters read and budgets are those of `Recogniser.PlainOperator` on the remaining text and budgets, not of any output field; every output field and every byte of the buffer is that of the run of its trace, overflow included; append and nest level are as on entry |
| Recogniser.SpecialType | src/demangle.cc:774-779 | T, a letter of a class, type: on success at least one character is read, on failure the position and all three budgets are those of entry and no output remains; budgets never fall below entry or rise above 6 on the way |
| Demangle.State.ParseSpecialType | src/demangle.cc:774-779 | acceptance, characters read and budgets are those of `Recogniser.SpecialType` on the remaining text and budgets, not of any output field; every output field and every byte of the buffer is that of the run of its trace, overflow included; append and nest level are as on entry |
| Recogniser.CovariantThunk | src/demangle.cc:781-785 | Tc two call offsets and an encoding: on success at least one character is read, on failure the position and all three budgets are those of entry and no output remains; budgets never fall below entry or rise above 6 on the way |
| Demangle.State.ParseCovariantThunk | src/demangle.cc:781-785 | acceptance, characters read and budgets are those of `Recogniser.CovariantThunk` on the remaining text and budgets, not of any output field; every output field and every byte of the buffer is that of the run of its trace, overflow included; append and nest level are as on entry |
| Recogniser.GuardName | src/demangle.cc:787-791 | GV or GR and a name: on success at least one character is read, on failure the position and all three budgets are those of entry and no output remains; budgets never fall below entry or rise above 6 on the way |
| Demangle.State.ParseGuardName | src/demangle.cc:787-791 | acceptance, characters read and budgets are those of `Recogniser.GuardName` on the remaining text and budgets, not of any output field; every output field and every byte of the buffer is that of the run of its trace, overflow included; append and nest level are as on entry |
| Recogniser.Thunk | src/demangle.cc:793-797 | T [class] call offset encoding: on success at least one character is read, on failure the position and all three budgets are those of entry and no output remains; budgets never fall below entry or rise above 6 on the way |
| Demangle.State.ParseThunk | src/demangle.cc:793-797 | acceptance, characters read and budgets are those of `Recogniser.Thunk` on the remaining text and budgets, not of any output field; every output field and every byte of the buffer is that of the run of its trace, overflow included; append and nest level are as on entry |
| Recogniser.ConstructionVtable | src/demangle.cc:800-806 | TC type number _ type, the second type unprinted: on success at least one character is read, on failure the position and all three budgets are those of entry and no output remains; budgets never fall below entry or rise above 6 on the way |
| Demangle.State.ParseConstructionVtable | src/demangle.cc:800-806 | acceptance, characters read and budgets are those of `Recogniser.ConstructionVtable` on the remaining text and budgets, not of any output field; every output field and every byte of the buffer is that of the run of its trace, overflow included; append and nest level are as on entry |
| Recogniser.GuardEncoding | src/demangle.cc:819-822 | GA encoding: on success at least one character is read, on failure the position and all three budgets are those of entry and no output remains; budgets never fall below entry or rise above 6 on the way |
| Demangle.State.ParseGuardEncoding | src/demangle.cc:819-822 | acceptance, characters read and budgets are those of `Recogniser.GuardEncoding` on the remaining text and budgets, not of any output field; every output field and every byte of the buffer is that of the run of its trace, overflow included; append and nest level are as on entry |
| Recogniser.SpecialName | src/demangle.cc:772-830 | the nine alternatives in order: on success at least one character is read, on failure the position and all three budgets are those of entry and no output remains; budgets never fall below entry or rise above 6 on the way |
| Demangle.State.ParseSpecialName | src/demangle.cc:772-830 | acceptance, characters read and budgets are those of `Recogniser.SpecialName` on the remaining text and budgets, not of any output field; every output field and every byte of the buffer is that of the run of its trace, overflow included; append and nest level are as on entry |
| Recogniser.QualifiedType | src/demangle.cc:912-916 | qualifiers and a type: on success at least one character is read, on failure the position and all three budgets are those of entry and no output remains; budgets never fall below entry or rise above 6 on the way |
| Demangle.State.ParseQualifiedType | src/demangle.cc:912-916 | acceptance, characters read and budgets are those of `Recogniser.QualifiedType` on the remaining text and budgets, not of any output field; every output field and every byte of the buffer is that of the run of its trace, overflow included; append and nest level are as on entry |
| Recogniser.PointerType | src/demangle.cc:918-921 | one of O, P, R, C, G and a type: on success at least one character is read, on failure the position and all three budgets are those of entry and no output remains; budgets never fall below entry or rise above 6 on the way |
| Demangle.State.ParsePointerType | src/demangle.cc:918-921 | acceptance, characters read and budgets are those of `Recogniser.PointerType` on the remaining text and budgets, not of any output field; every output field and every byte of the buffer is that of the run of its trace, overflow included; append and nest level are as on entry |
| Recogniser.PackExpansion | src/demangle.cc:923-926 | Dp type: on success at least one character is read, on failure the position and all three budgets are those of entry and no output remains; budgets never fall below entry or rise above 6 on the way |
| Demangle.State.ParsePackExpansion | src/demangle.cc:923-926 | acceptance, characters read and budgets are those of `Recogniser.PackExpansion` on the remaining text and budgets, not of any output field; every output field and every byte of the buffer is that of the run of its trace, overflow included; append and nest level are as on entry |
| Recogniser.DeclType | src/demangle.cc:928-932 | Dt or DT expression E: on success at least one character is read, on failure the position and all three budgets are those of entry and no output remains; budgets never fall below entry or rise above 6 on the way |
| Demangle.State.ParseDeclType | src/demangle.cc:928-932 | acceptance, characters read and budgets are those of `Recogniser.DeclType` on the remaining text and budgets, not of any output field; every output field and every byte of the buffer is that of the run of its trace, overflow included; append and nest level are as on entry |
| Recogniser.VendorType | src/demangle.cc:934-938 | U source-name type: on success at least one character is read, on failure the position and all three budgets are those of entry and no output remains; budgets never fall below entry or rise above 6 on the way |
| Demangle.State.ParseVendorType | src/demangle.cc:934-938 | acceptance, characters read and budgets are those of `Recogniser.VendorType` on the remaining text and budgets, not of any output field; every output field and every byte of the buffer is that of the run of its trace, overflow included; append and nest level are as on entry |
| Recogniser.PlainType | src/demangle.cc:940-947 | builtin, function, class, array, member pointer or substitution: on success at least one character is read, on failure the position is that of entry and no output remains, while a budget that an inner failure left raised stays raised, up to 6 |
| Demangle.State.ParsePlainType | src/demangle.cc:940-947 | acceptance, characters read and budgets are those of `Recogniser.PlainType` on the remaining text and budgets, not of any output field; every output field and every byte of the buffer is that of the run of its trace, overflow included; append and nest level are as on entry |
| Recogniser.Type | src/demangle.cc:910-961 | all alternatives in order; a budget raised by a failed one is put back with the copy: on success at least one character is read, on failure the position and all three budgets are those of entry and no output remains; budgets never fall below entry or rise above 6 on the way |
| Demangle.State.ParseType | src/demangle.cc:910-961 | acceptance, characters read and budgets are those of `Recogniser.Type` on the remaining text and budgets, not of any output field; every output field and every byte of the buffer is that of the run of its trace, overflow included; append and nest level are as on entry |
| Recogniser.FunctionType | src/demangle.cc:995-1004 | F [Y] bare function type E: on success at least one character is read, on failure the position and all three budgets are those of entry and no output remains; budgets never fall below entry or rise above 6 on the way |
| Demangle.State.ParseFunctionType | src/demangle.cc:995-1004 | acceptance, characters read and budgets are those of `Recogniser.FunctionType` on the remaining text and budgets, not of any output field; every output field and every byte of the buffer is that of the run of its trace, overflow included; append and nest level are as on entry |
| Recogniser.BareFunctionType | src/demangle.cc:1007-1017 | one or more types with append off, then "()": on success at least one character is read, on failure the position and all three budgets are those of entry and no output remains; budgets never fall below entry or rise above 6 on the way |
| Demangle.State.ParseBareFunctionType | src/demangle.cc:1007-1017 | acceptance, characters read and budgets are those of `Recogniser.BareFunctionType` on the remaining text and budgets, not of any output field; every output field and every byte of the buffer is that of the run of its trace, overflow included; append and nest level are as on entry |
| Recogniser.BoundedArray | src/demangle.cc:1028-1032 | A number _ type: on success at least one character is read, on failure the position and all three budgets are those of entry and no output remains; budgets never fall below entry or rise above 6 on the way |
| Demangle.State.ParseBoundedArray | src/demangle.cc:1028-1032 | acceptance, characters read and budgets are those of `Recogniser.BoundedArray` on the remaining text and budgets, not of any output field; every output field and every byte of the buffer is that of the run of its trace, overflow included; append and nest level are as on entry |
| Recogniser.ArrayType | src/demangle.cc:1026-1040 | a number or an optional expression as bound: on success at least one character is read, on failure the position and all three budgets are those of entry and no output remains; budgets never fall below entry or rise above 6 on the way |
| Demangle.State.ParseArrayType | src/demangle.cc:1026-1040 | acceptance, characters read and budgets are those of `Recogniser.ArrayType` on the remaining text and budgets, not of any output field; every output field and every byte of the buffer is that of the run of its trace, overflow included; append and nest level are as on entry |
| Recogniser.PointerToMemberType | src/demangle.cc:1043-1051 | M type type: on success at least one character is read, on failure the position and all three budgets are those of entry and no output remains; budgets never fall below entry or rise above 6 on the way |
| Demangle.State.ParsePointerToMemberType | src/demangle.cc:1043-1051 | acceptance, characters read and budgets are those of `Recogniser.PointerToMemberType` on the remaining text and budgets, not of any output field; every output field and every byte of the buffer is that of the run of its trace, overflow included; append and nest level are as on entry |
| Recogniser.TemplateArgs | src/demangle.cc:1080-1092 | I one or more arguments E with append off, then "<>": on success at least one character is read, on failure the position and all three budgets are those of entry and no output remains; budgets never fall below entry or rise above 6 on the way |
| Demangle.State.ParseTemplateArgs | src/demangle.cc:1080-1092 | acceptance, characters read and budgets are those of `Recogniser.TemplateArgs` on the remaining text and budgets, not of any output field; every output field and every byte of the buffer is that of the run of its trace, overflow included; append and nest level are as on entry |
| Recogniser.TemplateArg | src/demangle.cc:1099-1131 | on failure exactly the argument budget is one higher (unless it was used up on entry); on success at least one character is read and all budgets stay within 6 |
| Demangle.State.ParseTemplateArg | src/demangle.cc:1099-1131 | acceptance, characters read and budgets are those of `Recogniser.TemplateArg` on the remaining text and budgets, not of any output field; every output field and every byte of the buffer is that of the run of its trace, overflow included; append and nest level are as on entry |
| Recogniser.ArgPack | src/demangle.cc:1109-1115 | I or J, arguments, E: on success at least one character is read, on failure the position and all three budgets are those of entry and no output remains; budgets never fall below entry or rise above 6 on the way |
| Demangle.State.ParseArgPack | src/demangle.cc:1109-1115 | acceptance, characters read and budgets are those of `Recogniser.ArgPack` on the remaining text and budgets, not of any output field; every output field and every byte of the buffer is that of the run of its trace, overflow included; append and nest level are as on entry |
| Recogniser.ArgExpression | src/demangle.cc:1124-1129 | X expression E: on success at least one character is read, on failure the position and all three budgets are those of entry and no output remains; budgets never fall below entry or rise above 6 on the way |
| Demangle.State.ParseArgExpression | src/demangle.cc:1124-1129 | acceptance, characters read and budgets are those of `Recogniser.ArgExpression` on the remaining text and budgets, not of any output field; every output field and every byte of the buffer is that of the run of its trace, overflow included; append and nest level are as on entry |
| Recogniser.Operation | src/demangle.cc:1156-1163 | an operator and n operands: on success at least one character is read, on failure the position and all three budgets are those of entry and no output remains; budgets never fall below entry or rise above 6 on the way |
| Demangle.State.ParseOperation | src/demangle.cc:1156-1163 | acceptance, characters read and budgets are those of `Recogniser.Operation` on the remaining text and budgets, not of any output field; every output field and every byte of the buffer is that of the run of its trace, overflow included; append and nest level are as on entry |
| Recogniser.SizeofType | src/demangle.cc:1180-1184 | st type: on success at least one character is read, on failure the position and all three budgets are those of entry and no output remains; budgets never fall below entry or rise above 6 on the way |
| Demangle.State.ParseSizeofType | src/demangle.cc:1180-1184 | acceptance, characters read and budgets are those of `Recogniser.SizeofType` on the remaining text and budgets, not of any output field; every output field and every byte of the buffer is that of the run of its trace, overflow included; append and nest level are as on entry |
| Recogniser.ScopeName | src/demangle.cc:1186-1199 | sr type unqualified-name, with arguments or without: on success at least one character is read, on failure the position and all three budgets are those of entry and no output remains; budgets never fall below entry or rise above 6 on the way |
| Demangle.State.ParseScopeName | src/demangle.cc:1186-1199 | acceptance, characters read and budgets are those of `Recogniser.ScopeName` on the remaining text and budgets, not of any output field; every output field and every byte of the buffer is that of the run of its trace, overflow included; append and nest level are as on entry |
| Recogniser.Operations | src/demangle.cc:1156-1178 | three, two or one operands, the greediest first: on success at least one character is read, on failure the position and all three budgets are those of entry and no output remains; budgets never fall below entry or rise above 6 on the way |
| Demangle.State.ParseOperations | src/demangle.cc:1156-1178 | acceptance, characters read and budgets are those of `Recogniser.Operations` on the remaining text and budgets, not of any output field; every output field and every byte of the buffer is that of the run of its trace, overflow included; append and nest level are as on entry |
| Recogniser.UnresolvedName | src/demangle.cc:1186-1199 | with template arguments or, less greedily, without: on success at least one character is read, on failure the position and all three budgets are those of entry and no output remains; budgets never fall below entry or rise above 6 on the way |
| Demangle.State.ParseUnresolvedName | src/demangle.cc:1186-1199 | acceptance, characters read and budgets are those of `Recogniser.UnresolvedName` on the remaining text and budgets, not of any output field; every output field and every byte of the buffer is that of the run of its trace, overflow included; append and nest level are as on entry |
| Recogniser.Expression | src/demangle.cc:1142-1201 | on failure exactly the expression budget is one higher (unless it was used up on entry); on success at least one character is read; the "st" alternative leaves the budget raised as the code does |
| Demangle.State.ParseExpression | src/demangle.cc:1142-1201 | acceptance, characters read and budgets are those of `Recogniser.Expression` on the remaining text and budgets, not of any output field; every output field and every byte of the buffer is that of the run of its trace, overflow included; append and nest level are as on entry |
| Recogniser.Literal | src/demangle.cc:1210-1221 | L type value E: on success at least one character is read, on failure the position and all three budgets are those of entry and no output remains; budgets never fall below entry or rise above 6 on the way |
| Demangle.State.ParseLiteral | src/demangle.cc:1210-1221 | acceptance, characters read and budgets are those of `Recogniser.Literal` on the remaining text and budgets, not of any output field; every output field and every byte of the buffer is that of the run of its trace, overflow included; append and nest level are as on entry |
| Recogniser.LiteralName | src/demangle.cc:1223-1227 | L mangled-name E: on success at least one character is read, on failure the position and all three budgets are those of entry and no output remains; budgets never fall below entry or rise above 6 on the way |
| Demangle.State.ParseLiteralName | src/demangle.cc:1223-1227 | acceptance, characters read and budgets are those of `Recogniser.LiteralName` on the remaining text and budgets, not of any output field; every output field and every byte of the buffer is that of the run of its trace, overflow included; append and nest level are as on entry |
| Recogniser.LiteralEncoding | src/demangle.cc:1229-1233 | LZ encoding E: on success at least one character is read, on failure the position and all three budgets are those of entry and no output remains; budgets never fall below entry or rise above 6 on the way |
| Demangle.State.ParseLiteralEncoding | src/demangle.cc:1229-1233 | acceptance, characters read and budgets are those of `Recogniser.LiteralEncoding` on the remaining text and budgets, not of any output field; every output field and every byte of the buffer is that of the run of its trace, overflow included; append and nest level are as on entry |
| Recogniser.ExprPrimary | src/demangle.cc:1208-1236 | number, float, name, encoding in order: on success at least one character is read, on failure the position and all three budgets are those of entry and no output remains; budgets never fall below entry or rise above 6 on the way |
| Demangle.State.ParseExprPrimary | src/demangle.cc:1208-1236 | acceptance, characters read and budgets are those of `Recogniser.ExprPrimary` on the remaining text and budgets, not of any output field; every output field and every byte of the buffer is that of the run of its trace, overflow included; append and nest level are as on entry |
| Recogniser.LocalEntity | src/demangle.cc:1250-1256 | Z encoding E "::" name [discriminator]: on success at least one character is read, on failure the position and all three budgets are those of entry and no output remains; budgets never fall below entry or rise above 6 on the way |
| Demangle.State.ParseLocalEntity | src/demangle.cc:1250-1256 | acceptance, characters read and budgets are those of `Recogniser.LocalEntity` on the remaining text and budgets, not of any output field; every output field and every byte of the buffer is that of the run of its trace, overflow included; append and nest level are as on entry |
| Recogniser.LocalString | src/demangle.cc:1258-1263 | Z encoding Es [discriminator]: on success at least one character is read, on failure the position and all three budgets are those of entry and no output remains; budgets never fall below entry or rise above 6 on the way |
| Demangle.State.ParseLocalString | src/demangle.cc:1258-1263 | acceptance, characters read and budgets are those of `Recogniser.LocalString` on the remaining text and budgets, not of any output field; every output field and every byte of the buffer is that of the run of its trace, overflow included; append and nest level are as on entry |
| Recogniser.LocalName | src/demangle.cc:1241-1265 | on failure exactly the local budget is one higher (unless it was used up on entry); on success at least one character is read |
| Demangle.State.ParseLocalName | src/demangle.cc:1241-1265 | acceptance, characters read and budgets are those of `Recogniser.LocalName` on the remaining text and budgets, not of any output field; every output field and every byte of the buffer is that of the run of its trace, overflow included; append and nest level are as on entry |
| Recogniser.Number | src/demangle.cc:600-636 | the value fits an int or the number fails; only the position moves, past at least one character on success |
| Recogniser.Lookup | src/demangle.cc:738-750 | the first entry of a table that fits the key, or the end of the table when none does |
| Recogniser.SubstitutionsHaveNoNul | src/demangle.cc:89-117 | no substitution letter is the terminator, so the table search cannot pass the end of the text |
| Recogniser.AbiTagStar | src/demangle.cc:222-226 | succeeds always; the cursor stays in the text and budgets between entry and 6 |
| Recogniser.AbiTagPlus | src/demangle.cc:209-216 | on success at least one character is read; on failure no output remains but the position may have moved (the source does not put it back) |
| Recogniser.TypeStar | src/demangle.cc:209-216 | after the first type: succeeds always; the cursor stays in the text and budgets between entry and 6 |
| Recogniser.TypePlus | src/demangle.cc:209-216 | one or more types: on success at least one character is read, on failure the position is that of entry and no output remains, while a budget that an inner failure left raised stays raised, up to 6 |
| Recogniser.TemplateArgStar | src/demangle.cc:222-226 | succeeds always; the cursor stays in the text and budgets between entry and 6 |
| Recogniser.TemplateArgPlus | src/demangle.cc:209-216 | one or more arguments: on success at least one character is read, on failure the position is that of entry and no output remains, while a budget that an inner failure left raised stays raised, up to 6 |
| Recogniser.Operands | src/demangle.cc:1156-1159 | n expressions in a row: the cursor stays in the text, budgets between entry and 6 |
| Recogniser.Prefix | src/demangle.cc:539-558 | succeeds always; the cursor stays in the text and budgets between entry and 6; may read nothing, yet the loop and its tail call terminate |
| Recogniser.LiteralValue | src/demangle.cc:1210-1218 | number or float digits: only the position moves, past at least one character on success |
| Recogniser.VtableOffset | src/demangle.cc:800-801 | number _: only the position moves, past at least one character on success |
| Recogniser.CloneGroup | src/demangle.cc:267-287 | the end of a ".letters.digits" group lies in the text |
| Recogniser.TopLevel | src/demangle.cc:1315-1333 | ends with the cursor in the text and budgets within 6 |
| Recogniser.OperatorRun | src/demangle.cc:742-746 | the trace of an operator prints "operator", a blank before a lower-case name, and the name |
| Recogniser.Res.Then | src/demangle.cc:425-431 | running on: inertness and absence of terminators are those of both parts, and the output is the second run after the first |
| Recogniser.Res.Undo | src/demangle.cc:425-431 | an undone attempt is inert: what it prints is rolled back |
| Recogniser.Res.Do | src/demangle.cc:425-431 | one more output action after the run |
| Recogniser.Res.Mute | src/demangle.cc:331-340 | a muted run leaves append as it was |
| Recogniser.Res.Nest | src/demangle.cc:319-328 | a nested run starts at level 0 and leaves the level as it was |
| Output.Out.Print | src/demangle.cc:231-248 | the high-water mark and the count of writes never go down |
| Output.Out.PrintPrev | src/demangle.cc:871-873 | the same for the remembered name, read back from the buffer |
| Output.Out.Separate | src/demangle.cc:350-354 | the same for a separator |
| Output.Out.Cancel | src/demangle.cc:357-363 | the same for taking a separator back |
| Output.Exec | src/demangle.cc:425-431 | the same over every trace |
| Output.FrozenKeeps | src/demangle.cc:425-431 | a failed parse, whatever it printed inside, equals its own rollback: every field is that of entry but the bytes of the buffer and the marks of what was tried |
| Output.MutedKeeps | src/demangle.cc:331-340 | with append off a whole parse changes no output but the nest level |
| Output.FlatKeeps | src/demangle.cc:319-354 | every parse other than a prefix leaves the nest level as it found it |
| Output.CleanRun | src/demangle.cc:231-248 | a parse that prints only terminator-free texts keeps text and remembered name terminator-free |
| Output.AppendKept | src/demangle.cc:331-340 | every parse, failed or not, leaves append as it found it |
| Faithful.CopyExact | src/demangle.cc:231-241 | a text that fits is copied whole, wherever it is read from, and nothing behind the buffer is read |
| Faithful.PrintExact | src/demangle.cc:291-307 | a text that fits stands behind what was there and a space if that parts two '<', terminated, and is remembered just if it starts like an identifier |
| Faithful.PrintGrows | src/demangle.cc:231-248 | fitting or not: no byte below the cursor changes, the overflow mark is never lost, and unless it is set the cursor moves on by the length and a terminator stands there |
| Faithful.NameKept | src/demangle.cc:298-305 | a text that is no identifier leaves the remembered name where it was |
| Faithful.PrintSound | src/demangle.cc:291-307 | an append keeps buffer and ideal text together: without overflow everything printed lies below the cursor, and if nothing was clipped the text and the remembered name are there |
| Faithful.RetractedSound | src/demangle.cc:350-363 | a separator behind which nothing came is taken back exactly, out of the buffer as out of the text |
| Faithful.RollbackSound | src/demangle.cc:453-458 | fields put back over a buffer written since still belong to it: the remembered name still spells what it did |
| Faithful.RunSound | src/demangle.cc:425-431 | the same over every trace a parse can leave, from every such state |
| Faithful.OverflowIsSeen | src/demangle.cc:231-248 | for every trace and every buffer, abandoned and clipped attempts included: while the final state is not overflowed, all that was printed lies below its cursor and inside the buffer, with a terminator at the cursor if one follows the ideal text |
| Faithful.UnclippedShows | src/demangle.cc:231-248 | for every trace during which nothing was clipped: not overflowed, the buffer starts with the ideal text, and nothing behind the buffer was read |
| Faithful.IdealIsIdeal | src/demangle.cc:231-248 | the ideal text, its high-water mark and its modes are the same for any two buffers |
| Faithful.FailureFrame | src/demangle.cc:425-431 | a failed parse leaves output cursor, remembered name, overflow flag, nest level and append as they were; only bytes may differ |
| Faithful.PlainIsMost | src/demangle.cc:291-296 | the spaces that part two '<' at most double a text |
| DemangleCases.BareSourceIsSealed | src/demangle.cc:453-464 | of a data name that is one source name the text is terminated if and only if it is not empty; an empty one leaves the buffer as it was |
| DemangleCases.NestedDataIsSealed | src/demangle.cc:514-558 | of a nested data name of up to 32767 characters the text is terminated if and only if the character behind its qualifiers is no 'E' |
| DemangleCases.ComponentIsRead | src/demangle.cc:514-558 | that character decides whether the prefix of a nested name reads anything |
| DemangleCases.NestedIsSealed | src/demangle.cc:514-526 | the same for a nested name anywhere, after any output |
| DemangleCases.PrefixSeals | src/demangle.cc:539-558 | inside a nested name the first component prints, or prints and takes back, a separator, so it terminates the text |
| DemangleCases.FailedArgsWriteNothing | src/demangle.cc:1080-1092 | template arguments that fail write nothing at all, not even to take it back |
| DemangleCases.EmptyName | src/demangle.cc:572-580 | "_Z0" is accepted and leaves every buffer exactly as it was, unterminated |
| DemangleCases.LeftoverText | src/demangle.cc:715-722 | "_ZcvZ0Es" is accepted with the text "operator ", but a buffer of 12 bytes or more holds "operator ::", the rest left by an abandoned attempt |
| DemangleCases.NameIsUnscoped | src/demangle.cc:470-487 | a name that is neither nested nor local nor followed by arguments is printed, taken back and printed again |
| DemangleCases.NameIsSource | src/demangle.cc:470-504 | so is a source name where nothing follows |
| DemangleCases.EncodingIsData | src/demangle.cc:453-464 | an encoding without a signature prints its name twice, the first time taken back |
| DemangleCases.TopLevelIsData | src/demangle.cc:1315-1333 | a whole data name is accepted and prints so |
| DemangleCases.TypeIsName | src/demangle.cc:910-961 | a type that starts like no other type prints what the name does |
| DemangleCases.NothingStarts | src/demangle.cc:470-558 | at the end of the text or of a group no name, type, signature or component starts, and trying leaves no output |
| CText.WrittenMeans | src/demangle.cc:600-636 | a number in decimal digits denotes that number, with no zero in front |
| MangledParts.NumberIsRead | src/demangle.cc:600-636 | every number from -INT_MAX to INT_MAX, as it is written, is read to its last digit, with its value |
| MangledParts.SourceIsRead | src/demangle.cc:572-580 | a length and an identifier of that length are read, and the identifier is printed, one that a compiler makes for an anonymous namespace as that |
| MangledParts.BuiltinFound | src/demangle.cc:75-86 | the table maps each of the 21 letters to the name of its builtin type |
| MangledParts.OperatorFound | src/demangle.cc:58-72 | the table maps each of the 49 codes to its operator |
| MangledParts.LibraryFound | src/demangle.cc:89-100 | the table maps each of the six letters to its class of the standard library |
| MangledParts.OperatorIsRead | src/demangle.cc:709-752 | each operator's code is read and shown behind "operator", a word with a space |
| MangledParts.OrdinalIsRead | src/demangle.cc:1055-1069 | every template parameter is read and shown as "?" |
| MangledParts.EarlierIsRead | src/demangle.cc:1281-1292 | every earlier component, by its number in base 36, is read and shown as "?" |
| MangledParts.LibraryReads | src/demangle.cc:1295-1309 | each abbreviation of the standard library is read and shown as what it stands for |
| DemangleReads.NameIsPlain | src/demangle.cc:470-487 | a name is read as a template's first, taken back when no arguments follow, and read again, with the text of one reading |
| DemangleReads.TypeIsParameter | src/demangle.cc:949-958 | so is a template parameter |
| DemangleReads.EncodingIsName | src/demangle.cc:453-464 | so is a name without a signature |
| DemangleReads.ArgsBehind | src/demangle.cc:1080-1092 | arguments print "<>" and nothing else, apart from another "<" |
| DemangleReads.NoArg | src/demangle.cc:1099-1139 | behind the last argument one more is tried, and its level stays counted |
| DemangleReads.LevelsAreUsedUp | src/demangle.cc:1103-1105 | with six of them counted no arguments are read |
| DemangleReads.PartTurn | src/demangle.cc:539-558 | one component of a nested name: "::" unless it is the first, its text, and the name it is remembered by |
| DemangleReads.ArgsTurn | src/demangle.cc:547-556 | arguments of a component: the "::" tried before them is taken back, and the remembered name stays |
| MangledNames.TypeIsRead | src/demangle.cc:910-961 | every type (builtin, vendor's, pointer-like, qualified, class, function, array, member pointer, pack expansion, parameter, substitution), wherever it stands and nothing continues it, is read to its last character and adds its text to any output |
| MangledNames.QualifiedIsRead | src/demangle.cc:912-916 | qualifiers in any order and number |
| MangledNames.PathIsRead | src/demangle.cc:539-558 | the components of a nested name, with their arguments, constructors and destructors by the name of their class, joined by "::" |
| MangledNames.ComponentIsRead | src/demangle.cc:543-545 | each kind of component, with the text it adds and the class it is remembered as |
| MangledNames.NameIsRead | src/demangle.cc:470-487 | every name: of one word, in std, with template arguments, or nested |
| MangledNames.WordIsLinked | src/demangle.cc:564-569 | identifiers of either linkage with their ABI tags, operators, vendor's operators and conversions |
| MangledNames.TagsAreRead | src/demangle.cc:690-704 | any number of ABI tags are read to the end of the last, and no further |
| MangledNames.ArgsAreRead | src/demangle.cc:1080-1092 | every list of arguments is read to its end, and raises the level by one and by one for each list in it |
| MangledNames.ArgIsRead | src/demangle.cc:1099-1139 | types, whole and fractional constants, addresses and packs as arguments |
| MangledNames.EncodingIsRead | src/demangle.cc:453-464 | every function, with its signature shown as "()", and every data or special name |
| MangledNames.SpecialIsRead | src/demangle.cc:772-830 | tables, type information, guards, temporaries, thunks, covariant thunks, construction tables and hidden aliases |
| MangledSymbols.SymbolIsRead | src/demangle.cc:453-464 | every symbol: an encoding, or something local to a function, that function's text before it |
| MangledSymbols.InsideIsRead | src/demangle.cc:1241-1265 | names inside functions, up to six functions deep, with their discriminators |
| MangledSymbols.StringInsideIsRead | src/demangle.cc:1241-1265 | string literals of a function, with the function's text |
| MangledSymbols.MangledIsRead | src/demangle.cc:1315-1333 | for every symbol that the terms build, with six lists of arguments at most, and every clone's suffix or version: "_Z", how it is written and that are accepted, and the ideal text is how it is shown, with the version behind it |
| MangledSymbols.MangledIsShown | src/demangle.cc:1368-1370 | the same in a buffer with room: it has not overflowed and is exactly the C string |
| MangledSymbols.SeventhListIsRefused | src/demangle.cc:1099-1112 | the bound is the code's own: with six lists in the name of a function, in whatever order and depth, no function whose first parameter is an instance of a template is accepted |
| DemangleData.UnscopedDataIsSealed | src/demangle.cc:491-504 | of a data name of one word, scoped by "St" at most and no conversion, the text is terminated if and only if its first characters say that it prints: behind "St", an operator, a destructor, or a word that is not empty; otherwise, as for a constructor, it is accepted without any text |
| DemangleData.TemplateDataIsSealed | src/demangle.cc:470-487 | a data name that is neither nested nor local and ends in template arguments is always terminated |
| DemangleData.LocalLeftover | src/demangle.cc:1241-1265 | "_ZZ0Es" is accepted without any text, but a buffer of three bytes or more holds the "::" of an abandoned attempt |
| DemangleData.UnscopedSeals | src/demangle.cc:491-504 | from any output: such a name leaves it terminated, or exactly as it was |
| DemangleData.UnqualifiedPrints | src/demangle.cc:564-569 | the same for a name of one word |
| DemangleData.OperatorPrints | src/demangle.cc:725-751 | an operator that is no conversion prints, unless it is a vendor's without a name; one that fails leaves no output |
| DemangleData.TagsWriteNothing | src/demangle.cc:690-699 | tags, complete or not, write nothing at all |
| DemangleData.ArgsSeal | src/demangle.cc:1080-1092 | template arguments that are complete leave the text terminated |
| DemangleData.RetractedNeedsRoom | src/demangle.cc:350-363 | a separator that is taken back must have fitted, or the buffer stays overflowed |
| DemangleData.PrefixNeedsRoom | src/demangle.cc:539-558 | below the first component a prefix needs two characters more than its text |
| DemangleData.NestedDataNeedsRoom | src/demangle.cc:514-558 | a nested data name with a component, of up to 32767 characters, is refused by every buffer with no more than two bytes beyond its text |
| DemangleData.PathRuns | src/demangle.cc:539-558 | a prefix of source names prints its text and never more than a separator beyond it |
| DemangleData.PathNeedsTwoMore | src/demangle.cc:514-558 | a nested name of source names, of up to 32767 characters, is refused if and only if the buffer has no more than two bytes beyond its text |
| DemangleData.WordsStaySame | src/demangle.cc:231-248 | the ideal text of a run depends on text, remembered name and modes only, not on what was tried before |
| DemangleRoom.RoomIsEnough | src/demangle.cc:1315-1333 | for every name of n characters, its terminator included, nothing is clipped in a buffer of more than n * (n + 41) bytes, not even in an attempt that is abandoned |
| DemangleRoom.RunAdds | src/demangle.cc:231-248 | a run prints no more, in the end and on the way, than the characters its trace names and so many repetitions of the remembered name |
| DemangleRoom.TopLevelFits | src/demangle.cc:1315-1333 | a whole name names at most 21 characters and one repetition for each character of it |
| DemangleRoom.EncodingFits | src/demangle.cc:453-464 | an encoding names at most 21 characters and one repetition for each character it reads, and on the way for each character left |
| DemangleRoom.NameFits | src/demangle.cc:470-487 | the same for a name |
| DemangleRoom.PrefixFits | src/demangle.cc:539-558 | the same for a prefix: a separator is paid for by the component behind it |
| DemangleRoom.LocalNameFits | src/demangle.cc:1241-1265 | the same for a local name |
| DemangleRoom.TypeFits | src/demangle.cc:910-961 | the same for a type |
| DemangleRoom.ExpressionFits | src/demangle.cc:1142-1201 | the same for an expression |
| DemangleStray.StrayStays | src/demangle.cc:871-873 | a read behind the buffer is never forgotten, however the parse goes on |
| DemangleStray.MemoryBehindIsIrrelevant | src/demangle.cc:871-873 | a run that reads nothing behind the buffer does the same whatever is there |
| DemangleStray.ReadsBehindTheBuffer | src/demangle.cc:871-888 | "_ZTVMN3fooC1EC1" with a buffer of three bytes reads memory behind it |
| CText.RunEnd | src/demangle.cc:600-624 | the longest run of a character class ends at the first character outside it |
| CText.DecimalGrows | src/demangle.cc:600-624 | cutting digits off never makes the value larger, so stopping at the first overflow is sound |
| CText.DecimalStep | src/demangle.cc:614-624 | one more digit multiplies by ten and adds it |
| Demangle.State.Fetch | src/demangle.cc:235-239 | a character of a text, or of the buffer and the memory behind it, and whether the read went there |
| Demangle.State.PrintText | src/demangle.cc:310-316 | prints exactly a text of that length, or nothing when the length is not positive |
| Demangle.State.Restore | src/demangle.cc:453-458 | "*state = copy": all ten fields are those of the copy, and the bytes of the buffer stay |
| Demangle.State.Append | src/demangle.cc:231-248 | for every buffer: its bytes, cursor and overflow flag become those of the exact buffer machine `Tape.Append`, for which `Faithful` proves what fits is there and what does not is marked |
| Demangle.State.MaybeAppendWithLength | src/demangle.cc:291-307 | for every buffer: exactly `Tape.Print`, a space between two '<', identifiers remembered with their place; nothing happens with append off or a length that is not positive |
| Demangle.State.AppendPrevName | src/demangle.cc:871-873 | a repeated name is read from where it lies in the buffer it is appended to, be that behind its end |
| Demangle.State.MaybeAppend | src/demangle.cc:310-316 | prints exactly the text, or nothing with append off; one that is no identifier keeps the remembered name |
| Demangle.State.EnterNestedName | src/demangle.cc:319-322 | only the nest level changes, to 0 |
| Demangle.State.LeaveNestedName | src/demangle.cc:325-328 | only the nest level changes, to the given one |
| Demangle.State.DisableAppend | src/demangle.cc:331-334 | only append changes |
| Demangle.State.RestoreAppend | src/demangle.cc:337-340 | only append changes |
| Demangle.State.MaybeIncreaseNestLevel | src/demangle.cc:343-347 | one level deeper inside a nested name, with the wrap of a short |
| Demangle.State.MaybeAppendSeparator | src/demangle.cc:350-354 | prints "::" only below the first component |
| Demangle.State.MaybeCancelLastSeparator | src/demangle.cc:357-363 | takes the last "::" back and terminates the text there |
| Demangle.State.ParseOneCharToken | src/demangle.cc:169-175 | reads the character if it is there and changes nothing else |
| Demangle.State.ParseTwoCharToken | src/demangle.cc:180-187 | reads both characters or none |
| Demangle.State.ParseCharClass | src/demangle.cc:191-200 | reads one character of the class, never the terminator |
| Demangle.State.AtLeastNumCharsRemaining | src/demangle.cc:131-138 | true just if so many characters precede the terminator |
| Demangle.State.StrPrefix | src/demangle.cc:141-148 | true just if the remaining text starts with the prefix |
| Demangle.State.ScanDecimal | src/demangle.cc:606-626 | reads the digits in an int without overflow; stops just when the value would not fit |
| Demangle.State.ParseNumber | src/demangle.cc:600-636 | the value and cursor of `Recogniser.Number`; no output field moves |
| Demangle.State.ParseFloatNumber | src/demangle.cc:640-652 | reads the run of lower-case hexadecimal digits, succeeding just if there is one |
| Demangle.State.ParseSeqId | src/demangle.cc:656-668 | reads the run of digits and capitals, succeeding just if there is one |
| Demangle.State.ParseRun | src/demangle.cc:640-652 | the cursor moves to the end of the run and nothing else changes |
| Demangle.State.SkipRun | src/demangle.cc:642-646 | finds the end of the run |
| Demangle.State.ParseIdentifier | src/demangle.cc:671-687 | succeeds just if so many characters are left; prints them, or the anonymous namespace, and moves past them |
| Demangle.State.PrintIdentifier | src/demangle.cc:676-680 | prints the identifier, an anonymous namespace by its readable name |
| Demangle.State.OneOrMoreAbiTags | src/demangle.cc:209-216 | the loop is `Recogniser.AbiTagPlus` |
| Demangle.State.OneOrMoreTypes | src/demangle.cc:209-216 | the loop is `Recogniser.TypePlus` |
| Demangle.State.OneOrMoreTemplateArgs | src/demangle.cc:209-216 | the loop is `Recogniser.TemplateArgPlus` |
| Demangle.State.ZeroOrMoreTemplateArgs | src/demangle.cc:222-226 | the loop is `Recogniser.TemplateArgStar` |
| Demangle.State.ParseOperands | src/demangle.cc:1156-1159 | n expressions in a row, as `Recogniser.Operands` |
| Demangle.State.ParsePrefix | src/demangle.cc:539-558 | the loop with its separators and nesting is `Recogniser.Prefix`; it may leave a deeper nest level and nothing else beside its output |
| Demangle.State.ParseNVOffset | src/demangle.cc:852-852 | a number whose failure may keep its sign |
| Demangle.State.ParseClassEnumType | src/demangle.cc:1020-1022 | decides as `Recogniser.Name` |
| Demangle.State.ParseLiteralValue | src/demangle.cc:1210-1218 | number or float digits, as `Recogniser.LiteralValue`; no output field moves |
| Demangle.State.ParseVtableOffset | src/demangle.cc:800-801 | number _, as `Recogniser.VtableOffset`; no output field moves |
| Demangle.State.FindAbbrev | src/demangle.cc:978-984 | the first table entry that fits |
| Demangle.State.PrintStd | src/demangle.cc:1299-1303 | "std", and "::" with the name if there is one |
| Demangle.State.PrintOperator | src/demangle.cc:742-746 | the operator's readable name |
| Demangle.State.IsFunctionCloneSuffix | src/demangle.cc:267-287 | true just if the rest of the text is a sequence of clone groups |
| DemangleProperties.PrintedTextHasNoTerminator | src/demangle.cc:1315-1333 | whatever is parsed, the printed text holds no terminator inside |
| DemangleProperties.FunctionsAreTerminated | src/demangle.cc:1007-1017 | every accepted name with a signature ends terminated: in every buffer that is not overflowed in the end a terminator stands at the cursor |
| DemangleProperties.SizeofLeavesLevel | src/demangle.cc:1180-1184 | whenever "st type" is the alternative that succeeds, the expression level ends at least one above entry |
| DemangleProperties.RaisedLevel | src/demangle.cc:1180-1184 | on "sti" it does: the whole text is read and the level ends at 1 |
| DemangleProperties.NumberPutsBack | src/demangle.cc:600-636 | a failing number leaves the cursor where it was if and only if it did not begin with its sign |
| DemangleProperties.AbiTagPutsBack | src/demangle.cc:702-704 | a failing tag leaves the cursor where it was if and only if there was no 'B' |
| DemangleProperties.MangledNamePutsBack | src/demangle.cc:446-448 | a failing mangled name leaves the cursor where it was if and only if there was no "_Z" |
| DemangleProperties.TagLoopSwallowsB | src/demangle.cc:209-226 | the tag loop ends where the grammar's tags end, or one character further, past a 'B' that starts no tag |
| DemangleProperties.DanglingTag | src/demangle.cc:690-704 | an input on which it does end further |
| DemangleProperties.CloneSuffixMeans | src/demangle.cc:267-287 | a text is a clone suffix if and only if it is a concatenation of ".letters.digits" groups |
| DemangleProperties.CloneSuffixIsGroups | src/demangle.cc:267-287 | the groups an accepted suffix consists of |
| DemangleProperties.GroupsAreCloneSuffix | src/demangle.cc:267-287 | every sequence of groups up to the terminator is accepted |
| Glob.SafeFNMatch | src/vlog_is_on.cc:73-98 | the loops terminate and decide as the recursive form `FNMatch` |
| Glob.MatcherIsSound | src/vlog_is_on.cc:73-98 | on every pattern and text, what the matcher accepts is a glob match |
| Glob.MatcherIsExact | src/vlog_is_on.cc:73-98 | it is also complete when the text has no '*' and the pattern does not end in "**" |
| Glob.PatternConditionIsExact | src/vlog_is_on.cc:80-80 | a pattern is matched exactly on all star-free texts if and only if it does not end in "**" |
| Glob.TextConditionIsExact | src/vlog_is_on.cc:81-85 | a text is matched exactly by all patterns not ending in "**" if and only if it has no '*' |
| Glob.TwoStarsNeedMore | src/vlog_is_on.cc:80-93 | a pattern ending in "**" misses its own shortest matches |
| Glob.LiteralStar | src/vlog_is_on.cc:81-85 | a '*' that meets a '*' is taken literally, and a match is missed |
| VLog.BaseName | src/vlog_is_on.cc:235-251 | the name patterns are matched against has no directory and no extension; which one it is, `BaseNameOfPath` says |
| VLog.AfterSlash | src/vlog_is_on.cc:235-243 | the part behind the last slash |
| VLog.IndexOf | src/vlog_is_on.cc:244-246 | the first occurrence, or the length |
| VLog.FirstCover | src/vlog_is_on.cc:172-187 | the first entry equal to or glob-matching a pattern |
| VLog.FirstMatch | src/vlog_is_on.cc:258-267 | the first entry whose pattern matches a name |
| VLog.Unmatched | src/vlog_is_on.cc:200-210 | exactly the sites that do not match, in order |
| VLog.UnmatchedSnoc | src/vlog_is_on.cc:200-210 | one more site is kept just if it does not match |
| VLog.State.constructor | src/vlog_is_on.cc:119-127 | the empty cache is valid |
| VLog.State.FindModule | src/vlog_is_on.cc:258-267 | finds the entry of a fresh lookup |
| VLog.State.InitVLOG3 | src/vlog_is_on.cc:219-292 | under the lock, for any site, again and again: keeps the cache invariant, answers by a fresh lookup, under whatever the file name is in its path without directory, "-inl" and extension, caches its pointer only when the flag had been read before, and lists a site once |
| VLog.State.Cache | src/vlog_is_on.cc:273-286 | the site points to the looked-up level and is on the list just if that is the default |
| VLog.State.Push | src/vlog_is_on.cc:283-284 | the list stays acyclic and without repetition |
| VLog.State.VLOG2Initializer | src/vlog_is_on.cc:130-163 | the entries of the flag come first, in order, with their values; the older ones stay behind them |
| VLog.State.BuildList | src/vlog_is_on.cc:139-157 | the built chain holds exactly the entries of the flag |
| VLog.State.AppendEntry | src/vlog_is_on.cc:143-151 | one more entry at the tail |
| VLog.State.Prepend | src/vlog_is_on.cc:158-161 | the built chain is joined to the old one |
| VLog.State.UpdateLevels | src/vlog_is_on.cc:172-187 | returns the old level of the first entry that covers the pattern; sets all entries with an equal pattern and no other |
| VLog.State.RedirectOne | src/vlog_is_on.cc:200-209 | one turn of the pointer-to-pointer loop unlinks a matching item or passes a kept one |
| VLog.State.Redirect | src/vlog_is_on.cc:195-210 | in place, exactly the matching sites leave the list and point to the new level; the rest keep their order |
| VLog.State.PrependEntry | src/vlog_is_on.cc:189-193 | the new entry is first and shares no level |
| VLog.State.AddModule | src/vlog_is_on.cc:189-210 | the cache invariant holds again: no site left on the list matches the new entry |
| VLog.State.SetVLOGLevel | src/vlog_is_on.cc:166-215 | old level of the first covering entry (else the default), all equal patterns set, and only when nothing covers it one new first entry with the matching sites redirected; every cached default stays right |
| VLog.State.DefaultAgrees | src/glog/vlog_is_on.h.in:77-83 | after any sequence of calls, a site that points to the default agrees with a fresh lookup |
| VLog.State.VlogIsOn | src/glog/vlog_is_on.h.in:77-83 | a site without a level decides by a fresh lookup, one with a level by a single load and without touching any list |
| VLog.PrependLookup | src/vlog_is_on.cc:189-193 | what a new first entry does to every fresh lookup |
| VLog.BoundSiteStaysCurrent | src/vlog_is_on.cc:200-210 | a site bound to an entry, which is never rebound, still agrees with a fresh lookup if and only if the new pattern does not match its file |
| VLog.BaseNameOfPath | src/vlog_is_on.cc:235-251 | for every directory, name without '/' and '.', "-inl" or not, and extension: the base name of that path is the name |
| VLog.EveryPath | src/vlog_is_on.cc:235-251 | every file name is such a path |
| VLog.PrintedIsRead | src/vlog_is_on.cc:130-163 | a flag printed from any list of patterns and levels is read as that list |
| VLog.BlanksAndPlus | src/vlog_is_on.cc:144-148 | blanks and a plus sign before a level do not matter |
| Reading.ReadFromOffset | src/symbolize.cc:147-167 | however short the reads are, the buffer holds all there is up to the count, and no other byte changes |
| Reading.ReadAllLines | src/symbolize.cc:395-484 | successive calls deliver exactly the terminated lines, in order, up to the first that does not fit into the buffer with its line feed |
| Reading.LineReader.ReadLine | src/symbolize.cc:411-449 | delivers the next line of what is left if it is terminated and fits, and leaves exactly what follows it |
| Reading.LineReader.Advance | src/symbolize.cc:412-439 | moves the incomplete line to the front and reads on; nothing of the file is lost or repeated |
| Reading.LineReader.Refill | src/symbolize.cc:412-439 | buffer and unread file together stay the same text |
| Reading.LineReader.TakeLine | src/symbolize.cc:440-448 | the line ends in a terminator and the rest is untouched |
| Reading.LineReader.FindLineFeed | src/symbolize.cc:465-467 | the first line feed of the buffered text |
| Reading.LineReader.constructor | src/symbolize.cc:397-404 | everything from the offset on is left to read |
| Reading.SplitLinesIsExact | src/symbolize.cc:411-449 | the lines with their feeds and a tail without one are the whole text |
| Reading.LineFound | src/symbolize.cc:423-443 | what the buffer shows decides whether the next line of the file is terminated and fits |
| Reading.FirstLine | src/symbolize.cc:411-449 | one line off the front of the deliverable lines |
| Reading.LineFeed | src/symbolize.cc:465-467 | the first line feed, or the length |
| Reading.LineFeedOf | src/symbolize.cc:465-467 | the first line feed of a text in two parts |
| Tables.GetSectionHeaderByType | src/symbolize.cc:196-222 | batches of 16 and short reads find the first header of the type, as one linear search would, and none just if there is none; where the file holds the encodings of headers, the answer is told from their fields alone |
| Tables.LinearHeader | src/symbolize.cc:196-222 | what one search from the front finds |
| Tables.LinearSymbol | src/symbolize.cc:278-326 | what one search from the front finds |
| Tables.ScanHeaders | src/symbolize.cc:213-218 | the first header of the type within a batch |
| Tables.SearchSymbols | src/symbolize.cc:287-322 | batches of 32 find the first defined symbol whose range, computed in 64 bits, holds the address; where the file holds the encodings of symbols, the answer is told from their fields alone |
| Tables.ScanSymbols | src/symbolize.cc:306-314 | the first such symbol within a batch |
| Tables.FindSymbol | src/symbolize.cc:278-326 | the name of that first symbol is in the buffer just if a terminator is, otherwise the buffer is cleared; without such a symbol it is untouched; where the file holds the encodings of symbols, all this is told from their fields alone |
| Tables.SliceOfSlice | src/symbolize.cc:209-212 | an entry of a batch is that entry of the file |
| Tables.BytesMean | src/symbolize.cc:306-314 | a number in base-256 digits, lowest first, is read as that number |
| Tables.SymbolIsRead | src/symbolize.cc:306-314 | an Elf64_Sym written field by field is read back field by field, for all values in range |
| Tables.HeaderIsRead | src/symbolize.cc:196-222 | so is an Elf64_Shdr |
| Tables.SymbolsAreSearched | src/symbolize.cc:278-326 | one linear search over encoded symbols finds the first defined one whose range holds the address |
| Tables.HeadersAreSearched | src/symbolize.cc:196-222 | one linear search over encoded headers finds the first of the type |
| Numbers.ItoaR | src/symbolize.cc:673-719 | for bases 2 to 16 it fails exactly when the buffer is smaller than the larger of digits and padding, plus one; otherwise the buffer holds the numeral, most significant digit first, and a terminator |
| Numbers.WriteBackwards | src/symbolize.cc:687-702 | the digits come out in reverse, and it stops exactly when they and a terminator do not fit |
| Numbers.ReverseFront | src/symbolize.cc:711-717 | the in-place reversal |
| Numbers.GetHex | src/symbolize.cc:489-503 | reads the longest run of hexadecimal digits of either case; the value is that of the digits modulo 2^64 |
| Numbers.HexRoundTrip | src/symbolize.cc:489-503 | every 64-bit number printed in base 16 with any padding is read back, and reading stops where printing stopped |
| Numbers.NumeralMeans | src/symbolize.cc:698-699 | a numeral denotes its number in every base, whatever the padding |
| Numbers.NumeralLength | src/symbolize.cc:690-704 | its length is the larger of the digits needed and the padding |
| Numbers.DigitCountIsLeast | src/symbolize.cc:690-704 | the digits counted are the least number that can hold the value |
| Numbers.ShiftIn | src/symbolize.cc:496-496 | shifting in 64 bits and adding is the same modulo 2^64 |
| Numbers.HexRun | src/symbolize.cc:493-500 | the run ends at the first character that is no digit |
| Numbers.DigitsByCharacter | src/symbolize.cc:493-500 | the digits of base 16 are 0 to 9, then a to f, read in either case and written small |
| Truncate.TruncateLogFile | src/logging.cc:2668-2707 | the overlapping copy with short reads leaves exactly the last bytes of a regular file longer than both limits, every other file as it was; a number of bytes that is negative as a file offset empties the file |
| Truncate.CopyBlock | src/logging.cc:2683-2693 | copying a block down keeps the copied front right and what is still to be copied untouched |
| Truncate.AllCopied | src/logging.cc:2698-2704 | at the end of the file the front is the last bytes |
| LogFile.RunKeeps | src/logging.cc:1329-1553 | over every run: the dropped length is a multiple of a MiB and at least a MiB behind the file's, the advised ranges tile it, and no counter reaches 32 bits |
| LogFile.StepKeeps | src/logging.cc:1329-1553 | the same for one operation |
| LogFile.DroppedKeeps | src/logging.cc:1534-1553 | after dropping, less than 3 MiB are undropped |
| LogFile.LoggedKeeps | src/logging.cc:1503-1553 | the step behind it: after a flush by a write less than 3 MiB are undropped |
| LogFile.FlushedRun | src/logging.cc:1503-1553 | over every run that ends with a flush by a write less than 3 MiB are undropped |
| LogFile.OpenedKeeps | src/logging.cc:1339-1501 | before the message is counted there is room for it below the size limit and a MiB |
| LogFile.CoveredOnce | src/logging.cc:1547-1551 | every position below the dropped length was advised exactly once since the last roll, and none above |
| LogFile.RecentKeeps | src/logging.cc:1120-1129 | one operation other than a flush from outside keeps the undropped part below 3 MiB plus what is unflushed |
| LogFile.UndroppedIsRecent | src/logging.cc:1503-1553 | in runs without a flush from outside, fewer than 3 MiB beyond the unflushed bytes are undropped |
| LogFile.DropDoesNotWrap | src/logging.cc:1536-1541 | the masked 32-bit expression is the length in whole MiB less one, and subtracting what was dropped does not wrap |
| LogFile.MaxLogSize | src/logging.cc:414-418 | the limit is between 1 and 4095 MiB whatever the flag |
| LogFile.LogFileObject.Write | src/logging.cc:1329-1553 | in machine integers, the counters become exactly those of the unbounded step function, of which `WriteCounts`, `FirstWriteOpens` and `NextAttempt` say what it does to a run |
| LogFile.LogFileObject.Roll | src/logging.cc:1341-1348 | a roll resets all counters |
| LogFile.LogFileObject.Reopen | src/logging.cc:1349-1362 | an old file may be reopened once |
| LogFile.LogFileObject.Open | src/logging.cc:1365-1501 | a file is made at every 32nd attempt, its header counted |
| LogFile.LogFileObject.Log | src/logging.cc:1503-1553 | the message is counted and, when a flush is due, memory dropped |
| LogFile.LogFileObject.DropMemory | src/logging.cc:1534-1553 | the 32-bit computation drops what the unbounded one does |
| LogFile.LogFileObject.FlushUnlocked | src/logging.cc:1120-1129 | only the unflushed count changes, and only with a file |
| LogFile.LogFileObject.Rename | src/logging.cc:1083-1108 | the file is closed but the counters stay |
| LogFile.LogFileObject.constructor | src/logging.cc:1058-1073 | the start of every run |
| LogFile.WriteCounts | src/logging.cc:1329-1501 | after every run, what one unmuted write does: it rolls just if the length has reached the limit, given from the flag itself, or the process changed; whether the file is open then, its length, and the attempts counted |
| LogFile.OthersCount | src/logging.cc:1083-1129 | after every run, what a flush, a rename or a muted write does |
| LogFile.FirstWriteOpens | src/logging.cc:1365-1501 | before any unmuted write and at every roll, a write that can create its file, with no stop and no full disk, ends open, with header and message as its length, or with the message alone in a file reopened |
| LogFile.AttemptsAreCounted | src/logging.cc:1365-1373 | after a failed creation each further write is one attempt counted and nothing else |
| LogFile.NextAttempt | src/logging.cc:1365-1373 | after a failed creation exactly 31 unmuted messages are lost before the next attempt, which opens the file if it can be created |
| LogFile.FlushCounts | src/logging.cc:1503-1530 | after every run: a write is flushed just if it is forced, due, or a million bytes are waiting |
| LogNames.CleanBase | src/logging.cc:1655-1676 | the loop collapses runs of slashes |
| LogNames.IsLogFromCurrentProject | src/logging.cc:1655-1730 | decides exactly `Recognised`, extension before or behind the stamp, of which `PlainIsExact` and `ExtensionIsExact` say which names those are |
| LogNames.CheckStamp | src/logging.cc:1708-1727 | every character in range has its place's form |
| LogNameAgreement.TimePidIsStamp | src/logging.cc:1389-1404 | what is written as time and process has the form the cleaner looks for |
| LogNameAgreement.ChosenNameAgreement | src/logging.cc:1599-1650 | with a chosen base name the cleaner finds the file made for it, for any extension, if and only if the base name has no doubled slash, the extension has no slash, and it is not mistaken for the start of the stamp |
| LogNameAgreement.UnstampedNameAgreement | src/logging.cc:1198-1203 | the same without the stamp: if and only if the base name has no doubled slash and the extension no slash |
| LogNameAgreement.CreateLogfileName | src/logging.cc:1198-1203 | the name made, stamped or not, is one the cleaner finds if and only if the base name has no doubled slash, the extension no slash, and a stamped one is not mistaken |
| LogNameAgreement.DefaultNameAgreement | src/logging.cc:1439-1449 | the same for default names, for any extension: if and only if the logging directory has no doubled slash of its own, the extension has no slash and is not mistaken |
| LogNameAgreement.NoSlashedEntry | src/logging.cc:1610-1643 | no directory entry gives a path whose last part holds a slash |
| LogNameAgreement.BehindClean | src/logging.cc:1686-1727 | behind the cleaned base name: recognised if and only if the extension is not mistaken |
| LogNameAgreement.TurnedStamp | src/logging.cc:1691-1694 | an extension that repeats the stamp is harmless only in whole repetitions |
| LogNameAgreement.PlainExtension | src/logging.cc:1691-1694 | an extension that starts with no digit is never mistaken |
| LogNameAgreement.DigitExtension | src/logging.cc:1691-1694 | one that starts with a digit can be |
| LogNameAgreement.LookedAt | src/logging.cc:1630-1643 | the path put together from directory and entry is the name the log was made with |
| LogNameAgreement.CollapseKeeps | src/logging.cc:1663-1672 | a name without doubled slashes is not changed by cleaning |
| LogNameAgreement.FirstDoubled | src/logging.cc:1663-1672 | at the first doubled slash the cleaned name goes on differently, or ends |
| LogNameAgreement.UnfinishedNamesPass | src/logging.cc:1706-1730 | the cleaner also takes names that stop anywhere in the stamp |
| LogNameAgreement.PlainIsExact | src/logging.cc:1706-1730 | for an empty extension a name is recognised if and only if it is the cleaned base name and a prefix of eight digits, "-", six digits, "." and any number of digits |
| LogNameAgreement.ExtensionIsExact | src/logging.cc:1686-1730 | for any other extension if and only if it is the cleaned base name, the extension before or behind, and such a prefix |
| LogNameAgreement.FitsIsBegins | src/logging.cc:1708-1727 | what is checked character by character is such a prefix |
| LogNameAgreement.CollapseDouble | src/logging.cc:1663-1672 | a doubled slash cleans like a single one |
| LogNameAgreement.TimePidIsRead | src/logging.cc:1389-1404 | every field of the time and the process number is read back from its own place |
| Shell.ShellEscape | src/logging.cc:2476-2503 | the loops build the quoted form |
| Shell.OneWord | src/logging.cc:2476-2503 | quote removal gives back exactly the string, as one word, in all three branches |
| Shell.QuotedIsLiteral | src/logging.cc:2476-2503 | wherever a word may go on, a quoted string adds exactly its characters |
| Shell.CommandLineRoundTrip | src/logging.cc:2476-2503 | a command line of quoted strings is read as exactly those strings |
| Shell.ReadProtected | src/logging.cc:2490-2499 | between double quotes the protected text is literal |
| Shell.ReadUnquoted | src/logging.cc:2478-2481 | text that needs no quotes is literal |
| FirstN.AtMostN | src/glog/logging.h.in:1148-1156 | in every interleaving of any number of threads at most n messages are logged; once the counter has passed n at most one fewer for each other thread; the counter stays within n plus the threads |
| FirstN.BoundIsReached | src/glog/logging.h.in:1148-1156 | for every n and every number of threads some interleaving ends with the counter above n and one message fewer for each thread but one, none at all with more threads than n |
| FirstN.AloneLogsTheFirstN | src/glog/logging.h.in:1148-1156 | a single thread logs exactly its first n executions |
| FirstN.RunKeeps | src/glog/logging.h.in:1148-1156 | what ties counter, places and messages together in every reachable state |
| FirstN.StepKeeps | src/glog/logging.h.in:1148-1156 | the same for one atomic access |
| FirstN.Site.Move | src/glog/logging.h.in:1151-1154 | one access of one thread |
| FirstN.Site.constructor | src/glog/logging.h.in:1149-1149 | a counter at zero |

## Left out

- Demangle.Demangle: in runs where some append was clipped, an answer of true still means that the text fitted, but which stale bytes the buffer then holds is given only by running the trace on it.
- Demangle.State.AppendPrevName: memory behind the buffer is a function of the offset that stays the same during the call.
- DemangleCases.NestedDataIsSealed: names of up to 32767 characters, because the nest level is a short and wraps behind that many components.
- DemangleCases.NestedIsSealed: the same bound.
- DemangleCases.PrefixSeals: the same bound, as the number of characters left.
- DemangleData.NestedDataNeedsRoom: the same bound.
- DemangleData.PathNeedsTwoMore: the same bound; for nested names with other components than source names, buffers between two bytes beyond the text and the high-water mark of the run are decided only by running the trace.
- DemangleData.UnscopedDataIsSealed: data names that are conversion operators or local entities, and special names, end as the types and names inside them do and are not classified.
- DemangleRoom.RoomIsEnough: the bound is not the least one.
- MangledSymbols.MangledIsRead: the terms have no expressions, so no `decltype`, no array bounds, arguments and constants that are expressions; no literals that are external names without `_Z`, no discriminator behind a name of internal linkage, marks only behind identifiers, and packs begin with J. A refusal is stated for a seventh list of arguments in the signature (`MangledSymbols.SeventhListIsRefused`), not wherever it may stand.
- MangledNames.PathIsRead: nested names of at most 32768 components, because the nest level is a short; behind that many it would leave out the separators.
- MangledNames.ArgIsRead: the type of a constant does not begin like a number, because such a constant is read as a name of internal linkage first.
- MangledParts.NumberIsRead: numbers from -2147483647 on.
- Demangle.State.constructor: the null name pointer is index 0 with length -1; a null output buffer is not modelled.
- Demangle.State.ParseSpecialName: each alternative of a long parsing function is a method of its own, called in the same order; the copy is taken and restored per alternative.
- Recogniser.Prefix: the loop's tail call and its iterations are one recursive function with a flag.
- VLog.State.InitVLOG3: mutual exclusion by `vmodule_lock` is taken for granted, so each call is one atomic step; the unlocked read in `VLOG_IS_ON` is a single load.
- VLog.State.VLOG2Initializer: the `sscanf` level is an unbounded integer, without its behaviour on overflow.
- Tables.FindSymbol: 64-bit entries of 24 bytes, fewer than 2^32 of them and all inside the file; the 32-bit layout differs only in constants.
- Reading.ReadFromOffset: reads do not fail, other than by being short, so the return of -1 is not modelled.
- Reading.LineReader.ReadLine: not to be called again after it returned false, when the source's end-of-line pointer is null.
- Tables.GetSectionHeaderByType: the table lies inside the file; for one that runs past its end the source trips an assertion or reads on without end.
- Tables.SearchSymbols: the same, for the symbol table.
- Truncate.TruncateLogFile: writes are full and do not fail, nobody else writes, and the difference of size and offset does not overflow.
- LogFile.RunKeeps: size policy on Linux with memory dropping on, a fixed size limit, and a header and message below one MiB together; the day and hour policies do not check the size.
- LogFile.LogFileObject.Write: a header and message below one MiB together, so that the 32-bit file length cannot wrap; whether opening, reopening or writing succeeds, the clock and the process are inputs of each event; the global flag that stops writing on a full disk is one of them.
- LogFile.LogFileObject.Open: the same bound.
- LogFile.LogFileObject.Log: the file is at most a MiB over its size limit before the message, which the bound above ensures.
- LogNameAgreement.DefaultNameAgreement: four-digit years, a non-negative process number and a directory that ends in a slash, which the directory list ensures.
- Shell.CommandLineRoundTrip: the words are arguments, not the command name, where `=` would make an assignment; unquoted characters that start expansions, patterns, operators or comments make the reader give up.
- FirstN.AtMostN: the counter wraps only when n plus the number of threads reaches 2^32; such runs are excluded.
- Choosing among files with `GetSuitableFileName`, and the order in which old files are pruned: the code does not fix either.
- Opening object files from /proc/self/maps, section names and relocation: composed of the readers above with system calls.
- Windows, macOS and Android branches, symlinks, locking, email, syslog, terminal colours, stack walkers, signal handling, CHECK macros and sinks.

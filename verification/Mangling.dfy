/** C++ names as terms, how section 5.1 of the Itanium C++ ABI writes them, and how they are to be shown. */
module Mangling {
  import opened CText

  // ---------------------------------------------------------------- words of the language

  datatype Builtin =
    | Void | WideChar | Bool | Char | SignedChar | UnsignedChar | Short | UnsignedShort | Int | UnsignedInt | Long
    | UnsignedLong | LongLong | UnsignedLongLong | Int128 | UnsignedInt128 | Float | Double | LongDouble | Float128
    | Ellipsis
  {
    function Code(): (c: char)
      ensures 'a' <= c <= 'z' && c != 'r' && c != 'u' && c != 'k' && c != 'p' && c != 'q'
    {
      match this
      case Void => 'v' case WideChar => 'w' case Bool => 'b' case Char => 'c' case SignedChar => 'a'
      case UnsignedChar => 'h' case Short => 's' case UnsignedShort => 't' case Int => 'i' case UnsignedInt => 'j'
      case Long => 'l' case UnsignedLong => 'm' case LongLong => 'x' case UnsignedLongLong => 'y' case Int128 => 'n'
      case UnsignedInt128 => 'o' case Float => 'f' case Double => 'd' case LongDouble => 'e' case Float128 => 'g'
      case Ellipsis => 'z'
    }

    function Text(): (s: string)
      ensures s != "" && s[0] != '<'
    {
      match this
      case Void => "void" case WideChar => "wchar_t" case Bool => "bool" case Char => "char"
      case SignedChar => "signed char" case UnsignedChar => "unsigned char" case Short => "short"
      case UnsignedShort => "unsigned short" case Int => "int" case UnsignedInt => "unsigned int" case Long => "long"
      case UnsignedLong => "unsigned long" case LongLong => "long long" case UnsignedLongLong => "unsigned long long"
      case Int128 => "__int128" case UnsignedInt128 => "unsigned __int128" case Float => "float"
      case Double => "double" case LongDouble => "long double" case Float128 => "__float128"
      case Ellipsis => "ellipsis"
    }
  }

  datatype Operator =
    | New | NewArray | Delete | DeleteArray | UnaryPlus | Negate | AddressOf | Dereference | Complement
    | Plus | Minus | Times | Divide | Remainder | BitAnd | BitOr | BitXor
    | Assign | PlusAssign | MinusAssign | TimesAssign | DivideAssign | RemainderAssign | AndAssign | OrAssign | XorAssign
    | ShiftLeft | ShiftRight | ShiftLeftAssign | ShiftRightAssign
    | Equal | NotEqual | Less | Greater | LessEqual | GreaterEqual | Not | And | Or
    | Increment | Decrement | Comma | MemberPointer | Arrow | Call | Index | Question | SizeofType | SizeofExpression
  {
    function Code(): (s: string)
      ensures |s| == 2 && IsLower(s[0]) && IsAlpha(s[1]) && !(s[0] == 'c' && s[1] == 'v')
    {
      match this
      case New => "nw" case NewArray => "na" case Delete => "dl" case DeleteArray => "da" case UnaryPlus => "ps"
      case Negate => "ng" case AddressOf => "ad" case Dereference => "de" case Complement => "co" case Plus => "pl"
      case Minus => "mi" case Times => "ml" case Divide => "dv" case Remainder => "rm" case BitAnd => "an"
      case BitOr => "or" case BitXor => "eo" case Assign => "aS" case PlusAssign => "pL" case MinusAssign => "mI"
      case TimesAssign => "mL" case DivideAssign => "dV" case RemainderAssign => "rM" case AndAssign => "aN"
      case OrAssign => "oR" case XorAssign => "eO" case ShiftLeft => "ls" case ShiftRight => "rs"
      case ShiftLeftAssign => "lS" case ShiftRightAssign => "rS" case Equal => "eq" case NotEqual => "ne"
      case Less => "lt" case Greater => "gt" case LessEqual => "le" case GreaterEqual => "ge" case Not => "nt"
      case And => "aa" case Or => "oo" case Increment => "pp" case Decrement => "mm" case Comma => "cm"
      case MemberPointer => "pm" case Arrow => "pt" case Call => "cl" case Index => "ix" case Question => "qu"
      case SizeofType => "st" case SizeofExpression => "sz"
    }

    function Text(): (s: string)
      ensures s != "" && (IsLower(s[0]) <==> IsWord())
    {
      match this
      case New => "new" case NewArray => "new[]" case Delete => "delete" case DeleteArray => "delete[]"
      case UnaryPlus => "+" case Negate => "-" case AddressOf => "&" case Dereference => "*" case Complement => "~"
      case Plus => "+" case Minus => "-" case Times => "*" case Divide => "/" case Remainder => "%" case BitAnd => "&"
      case BitOr => "|" case BitXor => "^" case Assign => "=" case PlusAssign => "+=" case MinusAssign => "-="
      case TimesAssign => "*=" case DivideAssign => "/=" case RemainderAssign => "%=" case AndAssign => "&="
      case OrAssign => "|=" case XorAssign => "^=" case ShiftLeft => "<<" case ShiftRight => ">>"
      case ShiftLeftAssign => "<<=" case ShiftRightAssign => ">>=" case Equal => "==" case NotEqual => "!="
      case Less => "<" case Greater => ">" case LessEqual => "<=" case GreaterEqual => ">=" case Not => "!"
      case And => "&&" case Or => "||" case Increment => "++" case Decrement => "--" case Comma => ","
      case MemberPointer => "->*" case Arrow => "->" case Call => "()" case Index => "[]" case Question => "?"
      case SizeofType => "sizeof" case SizeofExpression => "sizeof"
    }

    predicate IsWord() {
      New? || NewArray? || Delete? || DeleteArray? || SizeofType? || SizeofExpression?
    }

    /** Words stand apart from "operator", signs do not. */
    function Shown(): string { (if IsWord() then "operator " else "operator") + Text() }
  }

  datatype Library = Allocator | BasicString | String | InputStream | OutputStream | Stream {
    function Code(): char {
      match this
      case Allocator => 'a' case BasicString => 'b' case String => 's' case InputStream => 'i'
      case OutputStream => 'o' case Stream => 'd'
    }

    function Class(): string {
      match this
      case Allocator => "allocator" case BasicString => "basic_string" case String => "string"
      case InputStream => "istream" case OutputStream => "ostream" case Stream => "iostream"
    }

    function Text(): string { "std::" + Class() }
  }

  datatype Indirection = Pointer | Reference | MovingReference | Complex | Imaginary {
    function Code(): char {
      match this
      case Pointer => 'P' case Reference => 'R' case MovingReference => 'O' case Complex => 'C' case Imaginary => 'G'
    }
  }

  datatype Qualifier = Restrict | Volatile | Const {
    function Code(): char {
      match this
      case Restrict => 'r' case Volatile => 'V' case Const => 'K'
    }
  }

  // ---------------------------------------------------------------- terms

  /** The first, or the one after the n-th. */
  datatype Ordinal = First | After(n: nat)

  datatype Type =
    | Basic(b: Builtin)
    | Extension(id: string)
    | Indirect(i: Indirection, t: Type)
    | Qualified(q: Qualifier, t: Type)
    | Class(name: Name)
    | Function(external: bool, params: Types)
    | Array(size: nat, t: Type)
    | Member(of: Type, t: Type)
    | Expansion(t: Type)
    | Vendor(id: string, t: Type)
    | Parameter(k: Ordinal)
    | ParameterInstance(k: Ordinal, args: Args)
    | Earlier(id: string)
    | Standard(l: Library)

  datatype Types = One(t: Type) | More(t: Type, rest: Types)

  /** A type; a whole number, a number of hexadecimal digits, or the address of something, as a constant; a pack. */
  datatype Arg =
    | OfType(t: Type) | Constant(t: Type, v: int) | Float(t: Type, digits: string) | Address(e: Encoding)
    | Pack(args: Args)

  datatype Args = NoArgs | Args(a: Arg, rest: Args)

  /** An identifier, outside or inside the file, with its tags; an operator, a vendor's own one, or a conversion. */
  datatype Word =
    | Identifier(id: string, tags: seq<string>) | Internal(id: string, tags: seq<string>)
    | Oper(o: Operator) | VendorOper(arity: nat, id: string) | Conversion(t: Type)

  datatype Unscoped = Global(w: Word) | InStd(w: Word)

  datatype Template = Known(u: Unscoped) | OfLibrary(l: Library) | OfEarlier(id: string)

  datatype Component =
    | Part(w: Word) | Constructor(kind: nat) | Destructor(kind: nat) | Std | LibraryPart(l: Library)
    | EarlierPart(id: string) | ParameterPart(k: Ordinal)

  datatype Path = Last(c: Component, args: Args) | Then(c: Component, args: Args, rest: Path)

  datatype Name =
    | Plain(u: Unscoped)
    | Instance(template: Template, args: Args)
    | Nested(restricted: bool, volatile: bool, constant: bool, path: Path)

  datatype Offset = Fixed(n: int) | Virtual(n: int, m: int)

  datatype Table = VirtualTable | ConstructionTables | TypeInfo | TypeInfoName | InfoFunction | JavaClass {
    function Code(): char {
      match this
      case VirtualTable => 'V' case ConstructionTables => 'T' case TypeInfo => 'I' case TypeInfoName => 'S'
      case InfoFunction => 'F' case JavaClass => 'J'
    }
  }

  datatype Encoding =
    | FunctionOf(name: Name, params: Types)
    | DataOf(name: Name)
    | TableOf(kind: Table, t: Type)
    | GuardOf(name: Name)
    | TemporaryOf(name: Name)
    | Thunk(o: Offset, e: Encoding)
    | CovariantThunk(o: Offset, p: Offset, e: Encoding)
    | ConstructionTable(t: Type, n: nat, of: Type)
    | HiddenAlias(e: Encoding)

  datatype Mark = NoMark | Mark(n: nat)

  datatype Signature = NoSignature | Signature(params: Types)

  /** What has a symbol: something global, something inside a function, the guard of that, a string there. */
  datatype Symbol =
    | Outside(e: Encoding)
    | Inside(outer: Symbol, name: Name, k: Mark, s: Signature)
    | GuardInside(outer: Symbol, name: Name, k: Mark)
    | StringInside(outer: Symbol, k: Mark)

  // ---------------------------------------------------------------- how they are written

  function Number(n: int): string { if n < 0 then "n" + Written(-n) else Written(n) }

  function Sized(id: string): string { Written(|id|) + id }

  function OrdinalCode(k: Ordinal): string {
    match k
    case First => "_"
    case After(n) => Written(n) + "_"
  }

  function MangleType(t: Type): string {
    match t
    case Basic(b) => [b.Code()]
    case Extension(id) => "u" + Sized(id)
    case Indirect(i, x) => [i.Code()] + MangleType(x)
    case Qualified(q, x) => [q.Code()] + MangleType(x)
    case Class(name) => MangleName(name)
    case Function(external, params) => (if external then "FY" else "F") + (MangleTypes(params) + "E")
    case Array(size, x) => "A" + (Written(size) + ("_" + MangleType(x)))
    case Member(of, x) => "M" + (MangleType(of) + MangleType(x))
    case Expansion(x) => "Dp" + MangleType(x)
    case Vendor(id, x) => "U" + (Sized(id) + MangleType(x))
    case Parameter(k) => "T" + OrdinalCode(k)
    case ParameterInstance(k, args) => ("T" + OrdinalCode(k)) + MangleArgs(args)
    case Earlier(id) => "S" + (id + "_")
    case Standard(l) => ['S', l.Code()]
  }

  function MangleTypes(ts: Types): string {
    match ts
    case One(t) => MangleType(t)
    case More(t, rest) => MangleType(t) + MangleTypes(rest)
  }

  function MangleArg(a: Arg): string {
    match a
    case OfType(t) => MangleType(t)
    case Constant(t, v) => "L" + (MangleType(t) + (Number(v) + "E"))
    case Float(t, digits) => "L" + (MangleType(t) + (digits + "E"))
    case Address(e) => "L_Z" + (Mangle(e) + "E")
    case Pack(args) => "J" + (MangleList(args) + "E")
  }

  function MangleList(args: Args): string {
    match args
    case NoArgs => ""
    case Args(a, rest) => MangleArg(a) + MangleList(rest)
  }

  /** No arguments are not written at all. */
  function MangleArgs(args: Args): string {
    match args
    case NoArgs => ""
    case Args(a, rest) => "I" + (MangleArg(a) + (MangleList(rest) + "E"))
  }

  function MangleTags(tags: seq<string>): string {
    if tags == [] then "" else "B" + (Sized(tags[0]) + MangleTags(tags[1..]))
  }

  function MangleWord(w: Word): string {
    match w
    case Identifier(id, tags) => Sized(id) + MangleTags(tags)
    case Internal(id, tags) => "L" + (Sized(id) + MangleTags(tags))
    case VendorOper(arity, id) => "v" + (Written(arity) + Sized(id))
    case Oper(o) => o.Code()
    case Conversion(t) => "cv" + MangleType(t)
  }

  function MangleUnscoped(u: Unscoped): string {
    match u
    case Global(w) => MangleWord(w)
    case InStd(w) => "St" + MangleWord(w)
  }

  function MangleTemplate(h: Template): string {
    match h
    case Known(u) => MangleUnscoped(u)
    case OfLibrary(l) => ['S', l.Code()]
    case OfEarlier(id) => "S" + (id + "_")
  }

  function MangleComponent(c: Component): string {
    match c
    case Part(w) => MangleWord(w)
    case Constructor(kind) => "C" + Written(kind)
    case Destructor(kind) => "D" + Written(kind)
    case Std => "St"
    case LibraryPart(l) => ['S', l.Code()]
    case EarlierPart(id) => "S" + (id + "_")
    case ParameterPart(k) => "T" + OrdinalCode(k)
  }

  function ManglePath(p: Path): string {
    match p
    case Last(c, args) => MangleComponent(c) + MangleArgs(args)
    case Then(c, args, rest) => MangleComponent(c) + (MangleArgs(args) + ManglePath(rest))
  }

  function Qualifiers(restricted: bool, volatile: bool, constant: bool): string {
    (if restricted then "r" else "") + (if volatile then "V" else "") + (if constant then "K" else "")
  }

  function MangleName(n: Name): string {
    match n
    case Plain(u) => MangleUnscoped(u)
    case Instance(h, args) => MangleTemplate(h) + MangleArgs(args)
    case Nested(r, v, k, path) => "N" + (Qualifiers(r, v, k) + (ManglePath(path) + "E"))
  }

  function MangleOffset(o: Offset): string {
    match o
    case Fixed(n) => "h" + (Number(n) + "_")
    case Virtual(n, m) => "v" + (Number(n) + ("_" + (Number(m) + "_")))
  }

  function Mangle(e: Encoding): string {
    match e
    case FunctionOf(name, params) => MangleName(name) + MangleTypes(params)
    case DataOf(name) => MangleName(name)
    case TableOf(kind, t) => ['T', kind.Code()] + MangleType(t)
    case GuardOf(name) => "GV" + MangleName(name)
    case TemporaryOf(name) => "GR" + MangleName(name)
    case Thunk(o, x) => "T" + (MangleOffset(o) + Mangle(x))
    case CovariantThunk(o, p, x) => "Tc" + (MangleOffset(o) + (MangleOffset(p) + Mangle(x)))
    case ConstructionTable(t, n, of) => "TC" + (MangleType(t) + (Written(n) + ("_" + MangleType(of))))
    case HiddenAlias(x) => "GA" + Mangle(x)
  }

  function MangleMark(k: Mark): string { if k.Mark? then "_" + Written(k.n) else "" }

  function MangleInside(outer: Symbol, name: Name, k: Mark): string
    decreases outer, 1
  {
    "Z" + (MangleSymbol(outer) + ("E" + (MangleName(name) + MangleMark(k))))
  }

  function MangleSymbol(s: Symbol): string
    decreases s, 0
  {
    match s
    case Outside(e) => Mangle(e)
    case Inside(outer, name, k, NoSignature) => MangleInside(outer, name, k)
    case Inside(outer, name, k, Signature(params)) => MangleInside(outer, name, k) + MangleTypes(params)
    case GuardInside(outer, name, k) => "GV" + MangleInside(outer, name, k)
    case StringInside(outer, k) => "Z" + (MangleSymbol(outer) + ("Es" + MangleMark(k)))
  }

  // ---------------------------------------------------------------- how they are shown

  /** A compiler's name for an anonymous namespace is shown as what it is. */
  function ShowId(id: string): string {
    if |id| >= 12 && id[..11] == "_GLOBAL__N_" then "(anonymous namespace)" else id
  }

  function Angles(before: string): string { if before != "" && before[|before| - 1] == '<' then " <>" else "<>" }

  /** Arguments are not shown, only that there are some. */
  function ShowArgs(before: string, args: Args): string { if args == NoArgs then before else before + Angles(before) }

  function ShowType(t: Type): string {
    match t
    case Basic(b) => b.Text()
    case Extension(id) => ShowId(id)
    case Indirect(_, x) => ShowType(x)
    case Qualified(_, x) => ShowType(x)
    case Class(name) => ShowName(name)
    case Function(_, _) => "()"
    case Array(_, x) => ShowType(x)
    case Member(of, x) => ShowType(of) + ShowType(x)
    case Expansion(x) => ShowType(x)
    case Vendor(id, x) => ShowId(id) + ShowType(x)
    case Parameter(_) => "?"
    case ParameterInstance(_, _) => "?<>"
    case Earlier(_) => "?"
    case Standard(l) => l.Text()
  }

  function ShowWord(w: Word): string {
    match w
    case Identifier(id, _) => ShowId(id)
    case Internal(id, _) => ShowId(id)
    case Oper(o) => o.Shown()
    case VendorOper(_, id) => ShowId(id)
    case Conversion(t) => "operator " + ShowType(t)
  }

  function ShowUnscoped(u: Unscoped): string {
    match u
    case Global(w) => ShowWord(w)
    case InStd(w) => "std::" + ShowWord(w)
  }

  function ShowTemplate(h: Template): string {
    match h
    case Known(u) => ShowUnscoped(u)
    case OfLibrary(l) => l.Text()
    case OfEarlier(_) => "?"
  }

  /** "class" is the name of the component before. */
  function ShowComponent(c: Component, class_: string): string {
    match c
    case Part(w) => ShowWord(w)
    case Constructor(_) => class_
    case Destructor(_) => "~" + class_
    case Std => "std"
    case LibraryPart(l) => l.Text()
    case EarlierPart(_) => "?"
    case ParameterPart(_) => "?"
  }

  function ClassOf(c: Component): string {
    match c
    case Part(Identifier(id, _)) => ShowId(id)
    case Part(Internal(id, _)) => ShowId(id)
    case LibraryPart(l) => l.Class()
    case _ => ""
  }

  function ShowPath(p: Path, class_: string): string {
    match p
    case Last(c, args) => ShowArgs(ShowComponent(c, class_), args)
    case Then(c, args, rest) => ShowArgs(ShowComponent(c, class_), args) + ("::" + ShowPath(rest, ClassOf(c)))
  }

  function ShowName(n: Name): string {
    match n
    case Plain(u) => ShowUnscoped(u)
    case Instance(h, args) => ShowArgs(ShowTemplate(h), args)
    case Nested(_, _, _, path) => ShowPath(path, "")
  }

  /** Parameters are not shown, only that it is a function. */
  function Show(e: Encoding): string {
    match e
    case FunctionOf(name, _) => ShowName(name) + "()"
    case DataOf(name) => ShowName(name)
    case TableOf(_, t) => ShowType(t)
    case GuardOf(name) => ShowName(name)
    case TemporaryOf(name) => ShowName(name)
    case Thunk(_, x) => Show(x)
    case CovariantThunk(_, _, x) => Show(x)
    case ConstructionTable(t, _, _) => ShowType(t)
    case HiddenAlias(x) => Show(x)
  }

  function ShowSymbol(s: Symbol): string {
    match s
    case Outside(e) => Show(e)
    case Inside(outer, name, _, NoSignature) => ShowSymbol(outer) + ("::" + ShowName(name))
    case Inside(outer, name, _, Signature(_)) => ShowSymbol(outer) + ("::" + ShowName(name)) + "()"
    case GuardInside(outer, name, _) => ShowSymbol(outer) + ("::" + ShowName(name))
    case StringInside(outer, _) => ShowSymbol(outer)
  }

  // ---------------------------------------------------------------- which terms there are

  predicate IsId(id: string) { 0 < |id| <= INT_MAX && '\0' !in id && !IsDigit(id[0]) && id[0] != '<' }

  /** A name that a constructor can have. */
  predicate IsClassName(s: string) { s != "" && (IsAlpha(s[0]) || s[0] == '_') }

  predicate IsSeqId(id: string) { forall i :: 0 <= i < |id| ==> '0' <= id[i] <= '9' || 'A' <= id[i] <= 'Z' }

  predicate IsOrdinal(k: Ordinal) { k.After? ==> k.n <= INT_MAX }

  predicate TypeOk(t: Type) {
    match t
    case Basic(_) => true
    case Extension(id) => IsId(id)
    case Indirect(_, x) => TypeOk(x)
    case Qualified(_, x) => TypeOk(x)
    case Class(name) => NameOk(name) && NamesClass(name)
    case Function(_, params) => TypesOk(params)
    case Array(size, x) => size <= INT_MAX && TypeOk(x)
    case Member(of, x) => TypeOk(of) && TypeOk(x)
    case Expansion(x) => TypeOk(x)
    case Vendor(id, x) => IsId(id) && TypeOk(x)
    case Parameter(k) => IsOrdinal(k)
    case ParameterInstance(k, args) => IsOrdinal(k) && args != NoArgs && ArgsOk(args)
    case Earlier(id) => IsSeqId(id)
    case Standard(_) => true
  }

  predicate TypesOk(ts: Types) {
    match ts
    case One(t) => TypeOk(t)
    case More(t, rest) => TypeOk(t) && TypesOk(rest)
  }

  /** A constant's type does not begin like a number, as a source name does: that would be read as an internal name. */
  predicate ArgOk(a: Arg) {
    match a
    case OfType(t) => TypeOk(t)
    case Constant(t, v) => TypeOk(t) && Unnumbered(t) && -INT_MAX <= v <= INT_MAX
    case Float(t, digits) => TypeOk(t) && Unnumbered(t) && IsFraction(digits)
    case Address(e) => EncodingOk(e)
    case Pack(args) => ArgsOk(args)
  }

  /** Small hexadecimal digits, not all of them decimal. */
  predicate IsFraction(s: string) {
    && (forall i :: 0 <= i < |s| ==> IsDigit(s[i]) || 'a' <= s[i] <= 'f')
    && (exists i :: 0 <= i < |s| && !IsDigit(s[i]))
  }

  predicate Unnumbered(t: Type) { MangleType(t) != "" && !IsDigit(MangleType(t)[0]) && MangleType(t)[0] != 'n' }

  predicate ArgsOk(args: Args) {
    match args
    case NoArgs => true
    case Args(a, rest) => ArgOk(a) && ArgsOk(rest)
  }

  predicate WordOk(w: Word) {
    match w
    case Identifier(id, tags) => IsId(id) && forall k :: 0 <= k < |tags| ==> IsId(tags[k])
    case Internal(id, tags) => IsId(id) && forall k :: 0 <= k < |tags| ==> IsId(tags[k])
    case VendorOper(arity, id) => arity <= 9 && IsId(id)
    case Oper(_) => true
    case Conversion(t) => TypeOk(t)
  }

  predicate UnscopedOk(u: Unscoped) {
    match u
    case Global(w) => WordOk(w)
    case InStd(w) => WordOk(w)
  }

  /** A conversion takes no arguments: they would belong to its type. */
  predicate TemplateOk(h: Template) {
    match h
    case Known(u) => UnscopedOk(u) && !u.w.Conversion?
    case OfLibrary(_) => true
    case OfEarlier(id) => IsSeqId(id)
  }

  predicate ComponentOk(c: Component, args: Args) {
    match c
    case Part(w) => WordOk(w) && (w.Conversion? ==> args == NoArgs)
    case Constructor(kind) => 1 <= kind <= 3
    case Destructor(kind) => kind <= 2
    case Std => true
    case LibraryPart(_) => true
    case EarlierPart(id) => IsSeqId(id)
    case ParameterPart(k) => IsOrdinal(k)
  }

  /** Constructors and destructors follow the class they belong to. */
  predicate PathOk(p: Path, class_: string) {
    && (p.c.Constructor? || p.c.Destructor? ==> IsClassName(class_))
    && ComponentOk(p.c, p.args) && ArgsOk(p.args)
    && (p.Then? ==> PathOk(p.rest, ClassOf(p.c)))
  }

  /** The level of a component is counted in a short: behind it the "::" would be left out. */
  const MAX_PARTS := 32768

  function Parts(p: Path): nat {
    match p
    case Last(_, _) => 1
    case Then(_, _, rest) => 1 + Parts(rest)
  }

  /** An operator is a member of some class: it does not begin a nested name. */
  predicate NameOk(n: Name) {
    match n
    case Plain(u) => UnscopedOk(u)
    case Instance(h, args) => TemplateOk(h) && args != NoArgs && ArgsOk(args)
    case Nested(_, _, _, path) => PathOk(path, "") && Parts(path) <= MAX_PARTS && !(path.c.Part? && path.c.w.Oper?)
  }

  /** Not an operator, whose code could be that of a builtin type. */
  predicate NamesClass(n: Name) {
    match n
    case Plain(u) => u.Global? ==> u.w.Identifier? || u.w.Internal?
    case Instance(Known(u), _) => u.Global? ==> u.w.Identifier? || u.w.Internal?
    case _ => true
  }

  predicate OffsetOk(o: Offset) {
    -INT_MAX <= o.n <= INT_MAX && (o.Virtual? ==> -INT_MAX <= o.m <= INT_MAX)
  }

  predicate EncodingOk(e: Encoding) {
    match e
    case FunctionOf(name, params) => NameOk(name) && TypesOk(params)
    case DataOf(name) => NameOk(name)
    case TableOf(_, t) => TypeOk(t)
    case GuardOf(name) => NameOk(name)
    case TemporaryOf(name) => NameOk(name)
    case Thunk(o, x) => OffsetOk(o) && EncodingOk(x)
    case CovariantThunk(o, p, x) => OffsetOk(o) && OffsetOk(p) && EncodingOk(x)
    case ConstructionTable(t, n, of) => TypeOk(t) && n <= INT_MAX && TypeOk(of)
    case HiddenAlias(x) => EncodingOk(x)
  }

  /** Only identifiers are told apart by marks. */
  predicate MarkOk(name: Name, k: Mark) {
    k.Mark? ==> k.n <= INT_MAX && name.Plain? && name.u.Global? && name.u.w.Identifier?
  }

  /** Behind a mark no number begins. */
  predicate SymbolOk(s: Symbol) {
    match s
    case Outside(e) => EncodingOk(e)
    case Inside(outer, name, k, NoSignature) => IsScope(outer) && SymbolOk(outer) && NameOk(name) && MarkOk(name, k)
    case Inside(outer, name, k, Signature(params)) =>
      && IsScope(outer) && SymbolOk(outer) && NameOk(name) && MarkOk(name, k)
      && TypesOk(params) && (k.Mark? ==> MangleTypes(params) != "" && !IsDigit(MangleTypes(params)[0]))
    case GuardInside(outer, name, k) => IsScope(outer) && SymbolOk(outer) && NameOk(name) && MarkOk(name, k)
    case StringInside(outer, k) => IsScope(outer) && SymbolOk(outer) && (k.Mark? ==> k.n <= INT_MAX)
  }

  /** A function, that is; a name without a signature is not told from one. */
  predicate IsScope(s: Symbol) { s.Outside? || s.Inside? }

  /** How deep functions are nested; a guard is looked for one level deeper. */
  function Depth(s: Symbol): nat {
    match s
    case Outside(_) => 0
    case Inside(outer, _, _, _) => Depth(outer) + 1
    case GuardInside(outer, _, _) => Depth(outer) + 2
    case StringInside(outer, _) => Depth(outer) + 1
  }

  // ---------------------------------------------------------------- how many lists of arguments

  function TypeLists(t: Type): nat {
    match t
    case Indirect(_, x) => TypeLists(x)
    case Qualified(_, x) => TypeLists(x)
    case Class(name) => NameLists(name)
    case Function(_, params) => TypesLists(params)
    case Array(_, x) => TypeLists(x)
    case Member(of, x) => TypeLists(of) + TypeLists(x)
    case Expansion(x) => TypeLists(x)
    case Vendor(_, x) => TypeLists(x)
    case ParameterInstance(_, args) => ArgsLists(args)
    case _ => 0
  }

  function TypesLists(ts: Types): nat {
    match ts
    case One(t) => TypeLists(t)
    case More(t, rest) => TypeLists(t) + TypesLists(rest)
  }

  function ArgLists(a: Arg): nat {
    match a
    case OfType(t) => TypeLists(t)
    case Constant(t, _) => TypeLists(t)
    case Float(t, _) => TypeLists(t)
    case Address(e) => Lists(e)
    case Pack(args) => ListLists(args) + 1
  }

  function ListLists(args: Args): nat
    decreases args, 0
  {
    match args
    case NoArgs => 0
    case Args(a, rest) => ArgLists(a) + ListLists(rest)
  }

  function ArgsLists(args: Args): nat
    decreases args, 1
  {
    if args == NoArgs then 0 else ListLists(args) + 1
  }

  function WordLists(w: Word): nat { if w.Conversion? then TypeLists(w.t) else 0 }

  function TemplateLists(h: Template): nat { if h.Known? then WordLists(h.u.w) else 0 }

  function ComponentLists(c: Component): nat { if c.Part? then WordLists(c.w) else 0 }

  function PathLists(p: Path): nat {
    match p
    case Last(c, args) => ComponentLists(c) + ArgsLists(args)
    case Then(c, args, rest) => ComponentLists(c) + ArgsLists(args) + PathLists(rest)
  }

  function NameLists(n: Name): nat {
    match n
    case Plain(u) => WordLists(u.w)
    case Instance(h, args) => TemplateLists(h) + ArgsLists(args)
    case Nested(_, _, _, path) => PathLists(path)
  }

  function Lists(e: Encoding): nat {
    match e
    case FunctionOf(name, params) => NameLists(name) + TypesLists(params)
    case DataOf(name) => NameLists(name)
    case TableOf(_, t) => TypeLists(t)
    case GuardOf(name) => NameLists(name)
    case TemporaryOf(name) => NameLists(name)
    case Thunk(_, x) => Lists(x)
    case CovariantThunk(_, _, x) => Lists(x)
    case ConstructionTable(t, _, of) => TypeLists(t) + TypeLists(of)
    case HiddenAlias(x) => Lists(x)
  }

  function SymbolLists(s: Symbol): nat {
    match s
    case Outside(e) => Lists(e)
    case Inside(outer, name, _, NoSignature) => SymbolLists(outer) + NameLists(name)
    case Inside(outer, name, _, Signature(params)) => SymbolLists(outer) + NameLists(name) + TypesLists(params)
    case GuardInside(outer, name, _) => SymbolLists(outer) + NameLists(name)
    case StringInside(outer, _) => SymbolLists(outer)
  }
}

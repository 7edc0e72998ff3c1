/** NUL-terminated text, the character classes the demangler tests, and decimal numbers. */
module CText {
  const INT_MAX: int := 0x7fff_ffff

  /** A C string together with its terminator: the only '\0' is the last character. */
  predicate NulTerminated(s: string) {
    && |s| > 0
    && s[|s| - 1] == '\0'
    && forall i :: 0 <= i < |s| - 1 ==> s[i] != '\0'
  }

  type CString = s: string | NulTerminated(s) witness ['\0']

  /** A text or a character without the terminator. */
  type Text = s: string | '\0' !in s witness ""

  type Letter = c: char | c != '\0' witness 'a'

  predicate IsLower(c: char) { 'a' <= c <= 'z' }

  predicate IsAlpha(c: char) { 'a' <= c <= 'z' || 'A' <= c <= 'Z' }

  predicate IsDigit(c: char) { '0' <= c <= '9' }

  /** A text starting so is remembered as a name. */
  predicate StartsName(s: string) { s != "" && (IsAlpha(s[0]) || s[0] == '_') }

  /** "n" more characters precede the terminator (always so for a negative "n"). */
  predicate HasChars(t: CString, p: nat, n: int)
    requires p < |t|
  {
    p + n < |t|
  }

  predicate StartsWith(t: CString, p: nat, prefix: string)
    requires p < |t|
  {
    p + |prefix| <= |t| && t[p..p + |prefix|] == prefix
  }

  predicate AllDigits(s: string) { forall i :: 0 <= i < |s| ==> IsDigit(s[i]) }

  /** The value a string of decimal digits denotes. */
  function Decimal(s: string): nat
    requires AllDigits(s)
  {
    if s == "" then 0 else 10 * Decimal(s[..|s| - 1]) + (s[|s| - 1] as int - '0' as int)
  }

  /** Where the maximal run of characters in "cls" starting at "p" ends. */
  function RunEnd(t: CString, p: nat, cls: char -> bool): (q: nat)
    requires p < |t| && !cls('\0')
    ensures p <= q < |t|
    ensures forall i :: p <= i < q ==> cls(t[i])
    ensures !cls(t[q])
    decreases |t| - p
  {
    if cls(t[p]) then RunEnd(t, p + 1, cls) else p
  }

  /** A longer run of digits never denotes a smaller number. */
  lemma {:induction false} DecimalGrows(s: string, k: nat)
    requires AllDigits(s) && k <= |s|
    ensures AllDigits(s[..k]) && Decimal(s[..k]) <= Decimal(s)
  {
    if k < |s| {
      DecimalGrows(s[..|s| - 1], k);
      assert s[..|s| - 1][..k] == s[..k];
    } else {
      assert s[..k] == s;
    }
  }

  /** One more digit read of a run that goes on to "RunEnd". */
  lemma DecimalStep(t: CString, from: nat, p: nat)
    requires from <= p < |t| && AllDigits(t[from..p]) && IsDigit(t[p])
    ensures AllDigits(t[from..p + 1])
    ensures Decimal(t[from..p + 1]) == 10 * Decimal(t[from..p]) + (t[p] as int - '0' as int)
    ensures AllDigits(t[from..RunEnd(t, p, IsDigit)])
    ensures Decimal(t[from..p + 1]) <= Decimal(t[from..RunEnd(t, p, IsDigit)])
  {
    var q := RunEnd(t, p, IsDigit);
    assert t[from..p + 1][..p - from] == t[from..p];
    forall i | 0 <= i < q - from ensures IsDigit(t[from..q][i]) {
      if i < p - from { assert t[from..p][i] == t[from..q][i]; }
    }
    DecimalGrows(t[from..q], p + 1 - from);
    assert t[from..q][..p + 1 - from] == t[from..p + 1];
  }

  /** A number in decimal digits, as it is written. */
  function Written(n: nat): (s: string)
    ensures s != ""
  {
    if n < 10 then [('0' as int + n) as char] else Written(n / 10) + [('0' as int + n % 10) as char]
  }

  /** It denotes that number, and no shorter string of digits does. */
  lemma {:induction false} WrittenMeans(n: nat)
    ensures AllDigits(Written(n)) && Decimal(Written(n)) == n && (n > 0 ==> Written(n)[0] != '0')
  {
    if n >= 10 {
      WrittenMeans(n / 10);
      assert Written(n)[..|Written(n)| - 1] == Written(n / 10);
    } else {
      assert Written(n)[..0] == "";
    }
  }
}

/**
 * The string helpers of penistats.py ("Tools" section) and the pieces of
 * Python's str API the program relies on: strip(), isalnum(), isdigit(),
 * lower(), startswith(), `in`, index() and int() on decimal text.
 */
module Tools {
  import opened Wrappers

  /** The characters for which Python's str.isspace() holds; str.strip() removes exactly these. */
  predicate IsSpace(c: char) {
    c == ' ' || ('\t' <= c <= '\r') || ('\U{1C}' <= c <= '\U{1F}')
    || c == '\U{85}' || c == '\U{A0}' || c == '\U{1680}'
    || ('\U{2000}' <= c <= '\U{200A}') || c == '\U{2028}' || c == '\U{2029}'
    || c == '\U{202F}' || c == '\U{205F}' || c == '\U{3000}'
  }

  predicate IsDigit(c: char) {
    '0' <= c <= '9'
  }

  predicate IsAlnum(c: char) {
    ('a' <= c <= 'z') || ('A' <= c <= 'Z') || IsDigit(c)
  }

  predicate AllAlnum(s: string) {
    forall i | 0 <= i < |s| :: IsAlnum(s[i])
  }

  predicate AllDigits(s: string) {
    forall i | 0 <= i < |s| :: IsDigit(s[i])
  }

  /** What "empty" means for a configuration string: absent, or whitespace only. */
  predicate Blank(s: Option<string>) {
    s.None? || AllSpace(s.value)
  }

  predicate AllSpace(s: string) {
    s == [] || (IsSpace(s[0]) && AllSpace(s[1..]))
  }

  /** A string is all whitespace iff each of its characters is. */
  lemma {:induction false} AllSpaceAt(s: string)
    ensures AllSpace(s) <==> forall i | 0 <= i < |s| :: IsSpace(s[i])
  {
    if s != [] {
      AllSpaceAt(s[1..]);
      assert forall i | 1 <= i < |s| :: s[i] == s[1..][i - 1];
    }
  }

  /** The index of the first character at or after i that is not whitespace; |s| when there is none. */
  function SkipSpaces(s: string, i: nat): (n: nat)
    requires i <= |s|
    ensures i <= n <= |s|
    ensures forall k | i <= k < n :: IsSpace(s[k])
    ensures n == |s| || !IsSpace(s[n])
    decreases |s| - i
  {
    if i < |s| && IsSpace(s[i]) then SkipSpaces(s, i + 1) else i
  }

  /** The end of s[..j] once its trailing whitespace is dropped, going no lower than lo. */
  function BackSpaces(s: string, lo: nat, j: nat): (n: nat)
    requires lo <= j <= |s|
    ensures lo <= n <= j
    ensures forall k | n <= k < j :: IsSpace(s[k])
    ensures n == lo || !IsSpace(s[n - 1])
    decreases j
  {
    if j > lo && IsSpace(s[j - 1]) then BackSpaces(s, lo, j - 1) else j
  }

  /** How many whitespace characters strip() removes at the front of s. */
  function LeadingSpaces(s: string): (n: nat)
    ensures n <= |s|
  {
    SkipSpaces(s, 0)
  }

  /**
   * Python's s.strip(): s without its leading and trailing whitespace. The
   * result is the text of s that follows its LeadingSpaces(s) leading
   * whitespace characters, only whitespace follows it, and it neither starts
   * nor ends with whitespace.
   */
  function Strip(s: string): (r: string)
    ensures |r| <= |s|
    ensures r == [] <==> Blank(Some(s))
    ensures r == [] || (!IsSpace(r[0]) && !IsSpace(r[|r| - 1]))
    ensures LeadingSpaces(s) + |r| <= |s|
    ensures forall i | 0 <= i < |r| :: r[i] == s[LeadingSpaces(s) + i]
    ensures forall i | 0 <= i < LeadingSpaces(s) :: IsSpace(s[i])
    ensures forall i | LeadingSpaces(s) + |r| <= i < |s| :: IsSpace(s[i])
  {
    var a := SkipSpaces(s, 0);
    var b := BackSpaces(s, a, |s|);
    AllSpaceAt(s);
    s[a..b]
  }

  /** s neither starts nor ends with whitespace. */
  predicate Trimmed(s: string) {
    s == [] || (!IsSpace(s[0]) && !IsSpace(s[|s| - 1]))
  }

  /** A string that neither starts nor ends with whitespace is its own strip(). */
  lemma StripKeepsTrimmed(s: string)
    requires Trimmed(s)
    ensures Strip(s) == s
  {
  }

  /** strip() is idempotent: a stripped string has nothing left to strip. */
  lemma StripIdempotent(s: string)
    ensures Strip(Strip(s)) == Strip(s)
  {
    StripKeepsTrimmed(Strip(s));
  }

  /** isStringEmpty (penistats.py:29-30): None, or nothing left after strip(). */
  function IsStringEmpty(s: Option<string>): (r: bool)
    ensures r <==> Blank(s)
  {
    s.None? || |Strip(s.value)| <= 0
  }

  /** ''.join(e for e in s if e.isalnum()) */
  function FilterAlnum(s: string): (r: string)
    ensures AllAlnum(r) && |r| <= |s|
    ensures AllAlnum(s) ==> r == s
    ensures Blank(Some(s)) ==> r == []
  {
    if s == [] then []
    else
      (if IsAlnum(s[0]) then [s[0]] else []) + FilterAlnum(s[1..])
  }

  /** Filtering keeps exactly the letters and digits of s: a character is in the result iff it is a letter or digit of s. */
  lemma {:induction false} FilterAlnumKeeps(s: string)
    ensures forall c :: c in FilterAlnum(s) <==> c in s && IsAlnum(c)
  {
    if s != [] {
      FilterAlnumKeeps(s[1..]);
      assert s == [s[0]] + s[1..];
    }
  }

  /** Filtering works piecewise: the letters and digits of a + b are those of a followed by those of b. */
  lemma {:induction false} FilterAlnumConcat(a: string, b: string)
    ensures FilterAlnum(a + b) == FilterAlnum(a) + FilterAlnum(b)
  {
    if a == [] {
      assert a + b == b;
    } else {
      var h := if IsAlnum(a[0]) then [a[0]] else [];
      calc {
        FilterAlnum(a + b);
        { assert (a + b)[0] == a[0]; }
        h + FilterAlnum((a + b)[1..]);
        { assert (a + b)[1..] == a[1..] + b; }
        h + FilterAlnum(a[1..] + b);
        { FilterAlnumConcat(a[1..], b); }
        h + (FilterAlnum(a[1..]) + FilterAlnum(b));
        (h + FilterAlnum(a[1..])) + FilterAlnum(b);
      }
    }
  }

  /** ''.join(c for c in s if (c.isdigit() or c == '.')) */
  function FilterNumeric(s: string): (r: string)
    ensures |r| <= |s|
    ensures forall i | 0 <= i < |r| :: IsDigit(r[i]) || r[i] == '.'
  {
    if s == [] then []
    else (if IsDigit(s[0]) || s[0] == '.' then [s[0]] else []) + FilterNumeric(s[1..])
  }

  /** Filtering keeps exactly the digits and dots of s: a character is in the result iff it is a digit or a dot of s. */
  lemma {:induction false} FilterNumericKeeps(s: string)
    ensures forall c :: c in FilterNumeric(s) <==> c in s && (IsDigit(c) || c == '.')
  {
    if s != [] {
      FilterNumericKeeps(s[1..]);
      assert s == [s[0]] + s[1..];
    }
  }

  /** Filtering works piecewise: the digits and dots of a + b are those of a followed by those of b. */
  lemma {:induction false} FilterNumericConcat(a: string, b: string)
    ensures FilterNumeric(a + b) == FilterNumeric(a) + FilterNumeric(b)
  {
    if a == [] {
      assert a + b == b;
    } else {
      var h := if IsDigit(a[0]) || a[0] == '.' then [a[0]] else [];
      calc {
        FilterNumeric(a + b);
        { assert (a + b)[0] == a[0]; }
        h + FilterNumeric((a + b)[1..]);
        { assert (a + b)[1..] == a[1..] + b; }
        h + FilterNumeric(a[1..] + b);
        { FilterNumericConcat(a[1..], b); }
        h + (FilterNumeric(a[1..]) + FilterNumeric(b));
        (h + FilterNumeric(a[1..])) + FilterNumeric(b);
      }
    }
  }

  function LowerChar(c: char): char {
    if 'A' <= c <= 'Z' then (c as int + 32) as char else c
  }

  /** Python's s.lower() on ASCII letters. */
  function Lower(s: string): (r: string)
    ensures |r| == |s|
  {
    seq(|s|, i requires 0 <= i < |s| => LowerChar(s[i]))
  }

  /** Python's s.startswith(prefix). */
  predicate StartsWith(s: string, prefix: string) {
    |prefix| <= |s| && s[..|prefix|] == prefix
  }

  /** Python's `sub in s` for strings. */
  predicate Contains(s: string, sub: string) {
    StartsWith(s, sub) || (s != [] && Contains(s[1..], sub))
  }

  /** A string cannot contain a longer one. */
  lemma {:induction false} ContainsNeedsRoom(s: string, sub: string)
    requires |s| < |sub|
    ensures !Contains(s, sub)
  {
    if s != [] {
      ContainsNeedsRoom(s[1..], sub);
    }
  }

  /** Python's s.index(c), with the ValueError it raises as None. */
  function IndexOf(s: string, c: char): (r: Option<nat>)
    ensures r.None? <==> c !in s
    ensures r.Some? ==> r.value < |s| && s[r.value] == c && c !in s[..r.value]
  {
    if s == [] then None
    else if s[0] == c then Some(0)
    else
      match IndexOf(s[1..], c)
      case None => None
      case Some(k) =>
        assert s[..k + 1] == [s[0]] + s[1..][..k];
        Some(k + 1)
  }

  /** '{0}'.format(s): Python renders None as the text "None". */
  function Fmt(s: Option<string>): string {
    match s
    case Some(v) => v
    case None => "None"
  }

  /** buildBaseId (penistats.py:32-33) */
  function BuildBaseId(group: Option<string>, serial: Option<string>): (r: string)
    ensures |r| == |Fmt(group)| + 1 + |Fmt(serial)| && r[|Fmt(group)|] == '_'
    ensures r[..|Fmt(group)|] == Fmt(group) && r[|Fmt(group)| + 1..] == Fmt(serial)
  {
    Fmt(group) + "_" + Fmt(serial)
  }

  /** buildValuesTopic (penistats.py:35-36) */
  function BuildValuesTopic(group: Option<string>, serial: Option<string>): (r: string)
    ensures |r| == |Fmt(group)| + 1 + |Fmt(serial)| && r[|Fmt(group)|] == '/'
    ensures r[..|Fmt(group)|] == Fmt(group) && r[|Fmt(group)| + 1..] == Fmt(serial)
  {
    Fmt(group) + "/" + Fmt(serial)
  }

  /**
   * A group and a serial made of letters and digits (as they are after the
   * identity repair) are recovered from the identifier and from the values
   * topic: two devices share an identifier only if they share group and serial.
   */
  lemma {:induction false} BaseIdInjective(g1: string, s1: string, g2: string, s2: string)
    requires AllAlnum(g1) && AllAlnum(g2)
    ensures BuildBaseId(Some(g1), Some(s1)) == BuildBaseId(Some(g2), Some(s2)) <==> g1 == g2 && s1 == s2
    ensures BuildValuesTopic(Some(g1), Some(s1)) == BuildValuesTopic(Some(g2), Some(s2)) <==> g1 == g2 && s1 == s2
  {
    SplitAtSeparator(g1, s1, g2, s2, '_');
    SplitAtSeparator(g1, s1, g2, s2, '/');
  }

  lemma SplitAtSeparator(g1: string, s1: string, g2: string, s2: string, sep: char)
    requires AllAlnum(g1) && AllAlnum(g2) && !IsAlnum(sep)
    ensures g1 + [sep] + s1 == g2 + [sep] + s2 ==> g1 == g2 && s1 == s2
  {
    var a, b := g1 + [sep] + s1, g2 + [sep] + s2;
    if |g1| < |g2| {
      assert a[|g1|] != b[|g1|];
    } else if |g2| < |g1| {
      assert a[|g2|] != b[|g2|];
    } else if a == b {
      assert g1 == a[..|g1|] && g2 == b[..|g2|];
      assert s1 == a[|g1| + 1..] && s2 == b[|g2| + 1..];
    }
  }

  function DigitsValue(s: string): nat
    requires AllDigits(s)
  {
    if s == [] then 0 else 10 * DigitsValue(s[..|s| - 1]) + (s[|s| - 1] as int - '0' as int)
  }

  /** Python's int(s) for a string made only of digits and '.': it raises unless s is a non-empty digit string. */
  function ParseDigits(s: string): (r: Option<nat>)
    ensures r.Some? <==> s != [] && AllDigits(s)
    ensures r.Some? ==> r.value == DigitsValue(s)
  {
    if s != [] && AllDigits(s) then Some(DigitsValue(s)) else None
  }

  /** The text int() accepts once stripped: decimal digits, optionally after one sign. */
  predicate IntText(t: string) {
    t != [] && (AllDigits(t) || ((t[0] == '-' || t[0] == '+') && |t| > 1 && AllDigits(t[1..])))
  }

  /** int() of a string once its surrounding whitespace is gone: an optional sign, then decimal digits. */
  function ParseIntText(t: string): (r: Option<int>)
    ensures r.Some? <==> IntText(t)
    ensures r.Some? && AllDigits(t) ==> r.value == DigitsValue(t)
    ensures r.Some? && t[0] == '+' ==> r.value == DigitsValue(t[1..])
    ensures r.Some? && t[0] == '-' ==> r.value == -(DigitsValue(t[1..]) as int)
  {
    if t != [] && (t[0] == '-' || t[0] == '+') then
      match ParseDigits(t[1..])
      case Some(n) => var v: int := if t[0] == '-' then -(n as int) else n; Some(v)
      case None => None
    else
      match ParseDigits(t)
      case Some(n) => Some(n)
      case None => None
  }

  /** Python's int(s) for a str: optional surrounding whitespace, an optional sign, decimal digits. */
  function ParseInt(s: string): (r: Option<int>)
    ensures r.Some? <==> IntText(Strip(s))
    ensures r.Some? && AllDigits(Strip(s)) ==> r.value == DigitsValue(Strip(s))
    ensures r.Some? && Strip(s)[0] == '+' ==> r.value == DigitsValue(Strip(s)[1..])
    ensures r.Some? && Strip(s)[0] == '-' ==> r.value == -(DigitsValue(Strip(s)[1..]) as int)
  {
    ParseIntText(Strip(s))
  }

  function DigitChar(d: nat): char
    requires d < 10
  {
    ('0' as int + d) as char
  }

  /** str(n) for a natural number: its decimal digits, most significant first. */
  function NatText(n: nat): (r: string)
    ensures r != [] && AllDigits(r)
  {
    if n < 10 then [DigitChar(n)] else NatText(n / 10) + [DigitChar(n % 10)]
  }

  /** str(n) for an integer: a '-' before the digits of a negative number. */
  function IntToText(n: int): string {
    if n < 0 then "-" + NatText(-n) else NatText(n)
  }

  /** The digits of n read back give n. */
  lemma {:induction false} NatTextValue(n: nat)
    ensures DigitsValue(NatText(n)) == n
  {
    var t := NatText(n);
    if n >= 10 {
      NatTextValue(n / 10);
      assert t[..|t| - 1] == NatText(n / 10);
    }
  }

  /** int(str(n)) == n: every integer written in decimal is read back by int(). */
  lemma ParseIntRoundTrip(n: int)
    ensures ParseInt(IntToText(n)) == Some(n)
  {
    var t := IntToText(n);
    TextTrimmed(n);
    StripKeepsTrimmed(t);
    TextReadBack(n);
  }

  /** The digits and sign of str(n) are read back as n. */
  lemma TextReadBack(n: int)
    ensures ParseIntText(IntToText(n)) == Some(n)
  {
    var t := IntToText(n);
    if n < 0 {
      assert t[1..] == NatText(-n);
      NatTextValue(-n);
    } else {
      NatTextValue(n);
    }
  }

  /** str(n) neither starts nor ends with whitespace. */
  lemma TextTrimmed(n: int)
    ensures Trimmed(IntToText(n))
  {
    var d := NatText(if n < 0 then -n else n);
    assert IsDigit(d[0]) && IsDigit(d[|d| - 1]);
  }
}

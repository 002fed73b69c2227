/**
 * The pieces of JavaScript's string, number and object semantics that the
 * hostel pages rely on: `trim`, `toLowerCase`, `includes`, `split`, string
 * `<`, `parseInt`, `Math.round`, the e-mail regular expression and
 * `encodeURIComponent`, plus plain JSON objects with fields that may be
 * missing.
 */
module Js {

  datatype Option<T> = None | Some(value: T)

  /** An outcome that is either a value or the message the page shows instead. */
  datatype Result<T> = Success(value: T) | Failure(error: string)

  // ---------------------------------------------------------------------
  // White space and trim
  // ---------------------------------------------------------------------

  /** The characters JavaScript's `\s` class and `String.prototype.trim` treat as white space. */
  predicate IsSpace(c: char) {
    || c == ' ' || c == '\t' || c == '\n' || c == '\r' || c == '\U{B}' || c == '\U{C}'
    || c == '\U{A0}' || c == '\U{1680}' || ('\U{2000}' <= c <= '\U{200A}')
    || c == '\U{2028}' || c == '\U{2029}' || c == '\U{202F}' || c == '\U{205F}'
    || c == '\U{3000}' || c == '\U{FEFF}'
  }

  /** Every character of `s` from index `lo` up to (not including) `hi` is white space. */
  predicate SpaceBetween(s: string, lo: nat, hi: nat)
    requires lo <= hi <= |s|
  {
    forall i :: lo <= i < hi ==> IsSpace(s[i])
  }

  predicate AllSpace(s: string) {
    SpaceBetween(s, 0, |s|)
  }

  /** The index of the first character of `s` from `lo` on that is not white space, else `|s|`. */
  function SkipSpace(s: string, lo: nat): (k: nat)
    requires lo <= |s|
    ensures lo <= k <= |s| && SpaceBetween(s, lo, k)
    ensures k == |s| || !IsSpace(s[k])
    decreases |s| - lo
  {
    if lo < |s| && IsSpace(s[lo]) then SkipSpace(s, lo + 1) else lo
  }

  /** The index just past the last character of `s[lo..hi]` that is not white space, else `lo`. */
  function BackSpace(s: string, lo: nat, hi: nat): (k: nat)
    requires lo <= hi <= |s|
    ensures lo <= k <= hi && SpaceBetween(s, k, hi)
    ensures k == lo || !IsSpace(s[k - 1])
    decreases hi
  {
    if lo < hi && IsSpace(s[hi - 1]) then BackSpace(s, lo, hi - 1) else hi
  }

  /** Drops the leading white space (`trimStart`). */
  function TrimStart(s: string): (r: string)
    ensures r == [] || !IsSpace(r[0])
  {
    s[SkipSpace(s, 0)..]
  }

  /**
   * `s.trim()`: the slice of `s` that neither starts nor ends with white
   * space, once the white space around it is removed.
   */
  function Trim(s: string): (r: string)
    ensures exists a, b :: 0 <= a <= b <= |s| && r == s[a..b] && SpaceBetween(s, 0, a) && SpaceBetween(s, b, |s|)
    ensures r == [] || (!IsSpace(r[0]) && !IsSpace(r[|r| - 1]))
  {
    var a := SkipSpace(s, 0);
    var b := BackSpace(s, a, |s|);
    s[a..b]
  }

  /** `!s.trim()` holds exactly when every character of `s` is white space (so also for ""). */
  lemma TrimEmptyIff(s: string)
    ensures Trim(s) == [] <==> AllSpace(s)
  {
    var r := Trim(s);
    var a, b :| 0 <= a <= b <= |s| && r == s[a..b] && SpaceBetween(s, 0, a) && SpaceBetween(s, b, |s|);
    if r != [] {
      assert r[0] == s[a];
    }
  }

  /** `!s.trim()`: nothing but white space, the guard in front of every comment and chat box. */
  predicate IsBlank(s: string) {
    s == [] || (IsSpace(s[0]) && IsBlank(s[1..]))
  }

  /** A blank string is exactly one that trims to "" and one made only of white space. */
  lemma {:induction false} BlankIffTrimEmpty(s: string)
    ensures IsBlank(s) <==> Trim(s) == ""
    ensures IsBlank(s) <==> AllSpace(s)
  {
    TrimEmptyIff(s);
    if s != [] {
      BlankIffTrimEmpty(s[1..]);
      assert AllSpace(s) <==> IsSpace(s[0]) && AllSpace(s[1..]) by {
        if IsSpace(s[0]) && AllSpace(s[1..]) {
          forall i | 0 <= i < |s| ensures IsSpace(s[i]) { if i > 0 { assert s[i] == s[1..][i - 1]; } }
        }
      }
    }
  }

  // ---------------------------------------------------------------------
  // Case, containment and order
  // ---------------------------------------------------------------------

  function LowerChar(c: char): char {
    if 'A' <= c <= 'Z' then (c as int + 32) as char else c
  }

  /** `s.toLowerCase()` on the ASCII letters. */
  function ToLower(s: string): (r: string)
    ensures |r| == |s|
    ensures forall i :: 0 <= i < |s| ==> r[i] == LowerChar(s[i])
  {
    if s == [] then [] else [LowerChar(s[0])] + ToLower(s[1..])
  }

  lemma ToLowerIdempotent(s: string)
    ensures ToLower(ToLower(s)) == ToLower(s)
  {
  }

  predicate IsPrefix(p: string, s: string) {
    |p| <= |s| && s[..|p|] == p
  }

  /** `s.includes(part)`: `part` occurs in `s` at some position. */
  predicate Includes(s: string, part: string)
    decreases |s|
  {
    IsPrefix(part, s) || (s != [] && Includes(s[1..], part))
  }

  /** An occurrence at position `i` makes `s.includes(part)` true. */
  lemma {:induction false} IncludesAt(s: string, part: string, i: nat)
    requires i + |part| <= |s| && s[i..i + |part|] == part
    ensures Includes(s, part)
    decreases i
  {
    if i > 0 {
      assert s[1..][i - 1..i - 1 + |part|] == part;
      IncludesAt(s[1..], part, i - 1);
    }
  }

  /** `s.includes(part)` is true only because of an occurrence at some position. */
  lemma {:induction false} IncludesWitness(s: string, part: string) returns (i: nat)
    requires Includes(s, part)
    ensures i + |part| <= |s| && s[i..i + |part|] == part
    decreases |s|
  {
    if IsPrefix(part, s) {
      i := 0;
    } else {
      var j := IncludesWitness(s[1..], part);
      assert s[1..][j..j + |part|] == s[j + 1..j + 1 + |part|];
      i := j + 1;
    }
  }

  /** Every string includes the empty string, so an empty search term filters nothing out. */
  lemma IncludesEmpty(s: string)
    ensures Includes(s, "")
  {
  }

  /** JavaScript's `a < b` on strings: lexicographic order of the characters. */
  predicate StrLess(a: string, b: string)
    decreases |a|
  {
    if a == [] then b != []
    else if b == [] then false
    else if a[0] != b[0] then a[0] < b[0]
    else StrLess(a[1..], b[1..])
  }

  predicate StrLessEq(a: string, b: string) {
    a == b || StrLess(a, b)
  }

  lemma {:induction false} StrLessTotal(a: string, b: string)
    ensures StrLess(a, b) || a == b || StrLess(b, a)
    ensures !(StrLess(a, b) && StrLess(b, a))
    ensures !StrLess(a, a)
    decreases |a|
  {
    if a != [] && b != [] && a[0] == b[0] {
      StrLessTotal(a[1..], b[1..]);
      if a[1..] == b[1..] { assert a == [a[0]] + a[1..] && b == [b[0]] + b[1..]; }
    } else if a != [] {
      StrLessTotal(a[1..], a[1..]);
    }
  }

  lemma {:induction false} StrLessTrans(a: string, b: string, c: string)
    requires StrLess(a, b) && StrLess(b, c)
    ensures StrLess(a, c)
    decreases |a|
  {
    if a != [] && b != [] && c != [] && a[0] == b[0] && b[0] == c[0] {
      StrLessTrans(a[1..], b[1..], c[1..]);
    }
  }

  // ---------------------------------------------------------------------
  // Split and join on one separator character
  // ---------------------------------------------------------------------

  /** `s.split(sep)` for a one-character separator: always at least one part, none holding `sep`. */
  function Split(s: string, sep: char): (parts: seq<string>)
    ensures |parts| >= 1
    ensures forall i :: 0 <= i < |parts| ==> sep !in parts[i]
  {
    if s == [] then [""]
    else
      var rest := Split(s[1..], sep);
      if s[0] == sep then [""] + rest else [[s[0]] + rest[0]] + rest[1..]
  }

  /** The UTF-16 code units of one character: two for one above U+FFFF (a surrogate pair), else one. */
  function Utf16Units(c: char): (n: nat)
    ensures 1 <= n <= 2
  {
    if c as int > 0xFFFF then 2 else 1
  }

  /** `s.length`, which counts UTF-16 code units rather than characters. */
  function Utf16Length(s: string): (n: nat)
    ensures |s| <= n <= 2 * |s|
  {
    if s == [] then 0 else Utf16Units(s[0]) + Utf16Length(s[1..])
  }

  /** The length of a concatenation is the sum of the lengths. */
  lemma {:induction false} Utf16LengthAppend(a: string, b: string)
    ensures Utf16Length(a + b) == Utf16Length(a) + Utf16Length(b)
  {
    if a != [] {
      assert (a + b)[0] == a[0] && (a + b)[1..] == a[1..] + b;
      Utf16LengthAppend(a[1..], b);
    } else {
      assert a + b == b;
    }
  }

  /** A text without characters above U+FFFF has as many code units as characters. */
  lemma {:induction false} Utf16LengthBmp(s: string)
    requires forall i :: 0 <= i < |s| ==> s[i] as int <= 0xFFFF
    ensures Utf16Length(s) == |s|
  {
    if s != [] {
      Utf16LengthBmp(s[1..]);
    }
  }

  /** The first part runs from the start of the string to its first separator, or to its end. */
  lemma {:induction false} SplitHead(s: string, sep: char)
    ensures |Split(s, sep)[0]| <= |s|
    ensures Split(s, sep)[0] == s[..|Split(s, sep)[0]|]
    ensures |Split(s, sep)[0]| < |s| ==> s[|Split(s, sep)[0]|] == sep
  {
    if s != [] && s[0] != sep {
      SplitHead(s[1..], sep);
    }
  }

  /** The first part of a text that starts with a separator-free piece and a separator is that piece. */
  lemma {:induction false} SplitHeadOfConcat(a: string, sep: char, rest: string)
    requires sep !in a
    ensures Split(a + [sep] + rest, sep)[0] == a
    decreases |a|
  {
    if a != [] {
      assert (a + [sep] + rest)[1..] == a[1..] + [sep] + rest;
      SplitHeadOfConcat(a[1..], sep, rest);
      assert a == [a[0]] + a[1..];
    }
  }

  /** `parts.join(sep)` */
  function Join(parts: seq<string>, sep: char): string
    requires |parts| >= 1
  {
    if |parts| == 1 then parts[0] else parts[0] + [sep] + Join(parts[1..], sep)
  }

  /** Splitting loses nothing: joining the parts again gives back the string. */
  lemma {:induction false} JoinSplit(s: string, sep: char)
    ensures Join(Split(s, sep), sep) == s
  {
    if s != [] {
      var rest := Split(s[1..], sep);
      JoinSplit(s[1..], sep);
      if s[0] != sep {
        var parts := Split(s, sep);
        assert parts[1..] == rest[1..];
        if |rest| > 1 {
          assert rest == [rest[0]] + rest[1..];
          assert Join(rest, sep) == rest[0] + [sep] + Join(rest[1..], sep);
        }
      }
    }
  }

  /** A string without the separator splits into itself alone. */
  lemma {:induction false} SplitNone(s: string, sep: char)
    requires sep !in s
    ensures Split(s, sep) == [s]
  {
    if s != [] {
      SplitNone(s[1..], sep);
      assert [s[0]] + s[1..] == s;
    }
  }

  /** Two separator-free pieces joined by one separator split back into the two pieces. */
  lemma {:induction false} SplitTwo(a: string, b: string, sep: char)
    requires sep !in a && sep !in b
    ensures Split(a + [sep] + b, sep) == [a, b]
  {
    var s := a + [sep] + b;
    if a == [] {
      assert s[1..] == b;
      SplitNone(b, sep);
    } else {
      assert s[0] == a[0];
      assert s[1..] == a[1..] + [sep] + b;
      SplitTwo(a[1..], b, sep);
      assert [a[0]] + a[1..] == a;
    }
  }

  /** `s.substring(0, n)` for a non-negative `n`: the first `n` characters, or all of a shorter string. */
  function Prefix(s: string, n: nat): (r: string)
    ensures |r| == if |s| < n then |s| else n
    ensures IsPrefix(r, s)
  {
    if |s| < n then s else s[..n]
  }

  /** `s.substring(n)` for a non-negative `n`: what follows the first `n` characters. */
  function Drop(s: string, n: nat): (r: string)
    ensures Prefix(s, n) + r == s
  {
    if |s| < n then "" else s[n..]
  }

  // ---------------------------------------------------------------------
  // Numbers
  // ---------------------------------------------------------------------

  predicate IsDigit(c: char) {
    '0' <= c <= '9'
  }

  function DigitChar(d: nat): (c: char)
    requires d < 10
    ensures IsDigit(c)
  {
    ('0' as int + d) as char
  }

  /** The value of a string of decimal digits. */
  function DigitsValue(s: string): nat
    requires forall i :: 0 <= i < |s| ==> IsDigit(s[i])
  {
    if s == [] then 0
    else
      assert IsDigit(s[|s| - 1]);
      10 * DigitsValue(s[..|s| - 1]) + (s[|s| - 1] as int - '0' as int)
  }

  /** `n.toString()` for a natural number. */
  function NatToString(n: nat): (r: string)
    ensures |r| >= 1
    ensures forall i :: 0 <= i < |r| ==> IsDigit(r[i])
  {
    if n < 10 then [DigitChar(n)] else NatToString(n / 10) + [DigitChar(n % 10)]
  }

  /** Reading the decimal text of `n` back gives `n`. */
  lemma {:induction false} NatToStringValue(n: nat)
    ensures DigitsValue(NatToString(n)) == n
  {
    if n >= 10 {
      var s := NatToString(n);
      assert s[..|s| - 1] == NatToString(n / 10);
      NatToStringValue(n / 10);
    }
  }

  /** `i.toString()` for an integer: a minus sign before the digits of a negative one. */
  function IntToString(i: int): (r: string)
    ensures |r| >= 1
  {
    if i < 0 then "-" + NatToString(-i) else NatToString(i)
  }

  /** The text of an integer starts with a minus sign exactly when the integer is negative. */
  lemma IntToStringSign(i: int)
    ensures IntToString(i)[0] == '-' <==> i < 0
  {
    if i >= 0 {
      assert IsDigit(NatToString(i)[0]);
    }
  }

  /** Different integers have different texts. */
  lemma IntToStringInjective(a: int, b: int)
    requires IntToString(a) == IntToString(b)
    ensures a == b
  {
    IntToStringSign(a);
    IntToStringSign(b);
    if a < 0 {
      assert NatToString(-a) == NatToString(-b) by {
        NegativeText(a);
        NegativeText(b);
      }
      NatToStringInjective(-a, -b);
    } else {
      NatToStringInjective(a, b);
    }
  }

  lemma NatToStringInjective(x: nat, y: nat)
    requires NatToString(x) == NatToString(y)
    ensures x == y
  {
    NatToStringValue(x);
    NatToStringValue(y);
  }

  lemma NegativeText(i: int)
    requires i < 0
    ensures IntToString(i)[1..] == NatToString(-i)
  {
  }

  /** JavaScript numbers as far as the pages need them: an integer or `NaN`. */
  datatype Num = Int(n: int) | NaN {
    function Plus(other: Num): Num {
      if Int? && other.Int? then Int(n + other.n) else NaN
    }
    function Minus(other: Num): Num {
      if Int? && other.Int? then Int(n - other.n) else NaN
    }
  }

  /** The longest prefix of `s` made of decimal digits. */
  function LeadingDigits(s: string): (r: string)
    ensures IsPrefix(r, s)
    ensures forall i :: 0 <= i < |r| ==> IsDigit(r[i])
    ensures |r| == |s| || !IsDigit(s[|r|])
  {
    if s != [] && IsDigit(s[0]) then [s[0]] + LeadingDigits(s[1..]) else []
  }

  /**
   * `parseInt(s)` for decimal text: leading white space, an optional sign,
   * then as many digits as follow; `NaN` when there is no digit.
   */
  function ParseInt(s: string): Num
  {
    ParseSigned(TrimStart(s))
  }

  /** The sign and digits once the leading white space is gone. */
  function ParseSigned(t: string): Num {
    if t != [] && t[0] == '-' then Negate(ParseDigits(t[1..]))
    else if t != [] && t[0] == '+' then ParseDigits(t[1..])
    else ParseDigits(t)
  }

  /** The value of the leading digits, `NaN` when there are none. */
  function ParseDigits(b: string): Num {
    var digits := LeadingDigits(b);
    if digits == [] then NaN else Int(DigitsValue(digits))
  }

  function Negate(x: Num): Num {
    if x.Int? then Int(-x.n) else NaN
  }

  lemma ParseIntOfNat(n: nat)
    ensures ParseInt(NatToString(n)) == Int(n)
  {
    var s := NatToString(n);
    assert TrimStart(s) == s;
    assert LeadingDigits(s) == s by { LeadingDigitsAll(s); }
    NatToStringValue(n);
  }

  lemma {:induction false} LeadingDigitsAll(s: string)
    requires forall i :: 0 <= i < |s| ==> IsDigit(s[i])
    ensures LeadingDigits(s) == s
  {
    if s != [] { LeadingDigitsAll(s[1..]); }
  }

  /**
   * `Math.round(p / q)` for a positive `q`: the nearest integer, halves
   * rounded up.
   */
  function RoundDiv(p: int, q: int): (r: int)
    requires q > 0
    ensures 2 * q * r - q <= 2 * p < 2 * q * r + q
  {
    var t, d := 2 * p + q, 2 * q;
    assert t == d * (t / d) + t % d;
    t / d
  }

  /**
   * `Math.round(part / whole * 100)`, a whole-number percentage, taken on
   * the exact fraction `100 * part / whole` with halves rounded up. The
   * page rounds the floating-point product instead, which can land just
   * below a half (29 of 200 gives 14.499999999999998 there, 15 here).
   */
  function Percent(part: int, whole: int): (r: int)
    requires whole > 0
    ensures 2 * whole * r - whole <= 200 * part < 2 * whole * r + whole
  {
    RoundDiv(100 * part, whole)
  }

  lemma PercentBounds(part: int, whole: int)
    requires 0 <= part <= whole && whole > 0
    ensures 0 <= Percent(part, whole) <= 100
  {
    var r := Percent(part, whole);
    if r < 0 {
      MulMono(2 * whole, r, -1);
    }
    if r > 100 {
      MulMono(2 * whole, 101, r);
      MulMono(200, part, whole);
    }
  }

  lemma MulMono(a: int, b: int, c: int)
    requires a >= 0 && b <= c
    ensures a * b <= a * c
  {
  }

  // ---------------------------------------------------------------------
  // JSON objects
  // ---------------------------------------------------------------------

  /** A JSON value as the stored records use them. */
  datatype Json = JStr(str: string) | JBool(flag: bool) | JNull

  /** A JSON object; a missing key is JavaScript's `undefined`. */
  type Obj = map<string, Json>

  function Get(o: Obj, key: string): Option<Json> {
    if key in o then Some(o[key]) else None
  }

  /** JavaScript truthiness of a field value. */
  predicate Truthy(v: Option<Json>) {
    match v
    case Some(JStr(s)) => s != ""
    case Some(JBool(b)) => b
    case _ => false
  }

  /** `v || fallback` */
  function Or(v: Option<Json>, fallback: Json): (r: Json)
    ensures Truthy(v) ==> Some(r) == v
    ensures !Truthy(v) ==> r == fallback
  {
    if Truthy(v) then v.value else fallback
  }

  /**
   * `{...o, [key]: v}` followed by a JSON round trip: a field set to
   * `undefined` disappears.
   */
  function Assign(o: Obj, key: string, v: Option<Json>): (r: Obj)
    ensures Get(r, key) == v
    ensures forall k :: k != key ==> Get(r, k) == Get(o, k)
  {
    match v
    case Some(x) => o[key := x]
    case None => o - {key}
  }

  // ---------------------------------------------------------------------
  // The e-mail shape check
  // ---------------------------------------------------------------------

  predicate NoSpaceOrAt(s: string) {
    forall i :: 0 <= i < |s| ==> s[i] != '@' && !IsSpace(s[i])
  }

  /**
   * `/^[^\s@]+@[^\s@]+\.[^\s@]+$/.test(s)`: a non-empty local part, one
   * '@', and a domain with a dot that has characters on both sides, none
   * of them white space or '@'.
   */
  predicate IsEmail(s: string) {
    exists at :: 0 < at < |s| && s[at] == '@' && NoSpaceOrAt(s[..at]) && DomainShape(s[at + 1..])
  }

  predicate DomainShape(d: string) {
    NoSpaceOrAt(d) && exists dot :: 0 < dot < |d| - 1 && d[dot] == '.'
  }

  /** The check as a program would run it: find the one '@', then a dot inside the domain. */
  function CheckEmail(s: string): (ok: bool)
    ensures ok <==> IsEmail(s)
  {
    var at := IndexOf(s, '@');
    assert IsEmail(s) ==> at.Some? && 0 < at.value && NoSpaceOrAt(s[..at.value]) && DomainShape(s[at.value + 1..]) by {
      if IsEmail(s) {
        var k :| 0 < k < |s| && s[k] == '@' && NoSpaceOrAt(s[..k]) && DomainShape(s[k + 1..]);
        FirstAt(s, k);
      }
    }
    at.Some? && 0 < at.value && NoSpaceOrAt(s[..at.value]) && DomainShape(s[at.value + 1..])
  }

  /** An '@' with none before it is the one `IndexOf` finds. */
  lemma {:induction false} FirstAt(s: string, k: nat)
    requires k < |s| && s[k] == '@' && NoSpaceOrAt(s[..k])
    ensures IndexOf(s, '@') == Some(k)
  {
    if k > 0 {
      assert s[..k][0] == s[0];
      assert s[1..][..k - 1] == s[..k][1..];
      FirstAt(s[1..], k - 1);
    }
  }

  function IndexOf(s: string, c: char): (r: Option<nat>)
    ensures r.Some? ==> r.value < |s| && s[r.value] == c && c !in s[..r.value]
    ensures r.None? ==> c !in s
  {
    if s == [] then None
    else if s[0] == c then Some(0)
    else
      var r := IndexOf(s[1..], c);
      if r.None? then None else
        assert s[..r.value + 1] == [s[0]] + s[1..][..r.value];
        Some(r.value + 1)
  }

  // ---------------------------------------------------------------------
  // encodeURIComponent
  // ---------------------------------------------------------------------

  /** Characters `encodeURIComponent` leaves as they are. */
  predicate Unreserved(c: char) {
    ('A' <= c <= 'Z') || ('a' <= c <= 'z') || ('0' <= c <= '9')
    || c == '-' || c == '_' || c == '.' || c == '!' || c == '~' || c == '*' || c == '\'' || c == '(' || c == ')'
  }

  function HexDigit(d: nat): char
    requires d < 16
  {
    if d < 10 then ('0' as int + d) as char else ('A' as int + d - 10) as char
  }

  function PercentByte(b: nat): string
    requires b < 256
  {
    ['%', HexDigit(b / 16), HexDigit(b % 16)]
  }

  /** The UTF-8 encoding of one Unicode scalar value. */
  function Utf8(c: char): (bytes: seq<nat>)
    ensures 1 <= |bytes| <= 4
    ensures forall i :: 0 <= i < |bytes| ==> bytes[i] < 256
  {
    var n := c as int;
    if n < 0x80 then [n]
    else if n < 0x800 then [0xC0 + n / 64, 0x80 + n % 64]
    else if n < 0x10000 then [0xE0 + n / 4096, 0x80 + (n / 64) % 64, 0x80 + n % 64]
    else [0xF0 + n / 262144, 0x80 + (n / 4096) % 64, 0x80 + (n / 64) % 64, 0x80 + n % 64]
  }

  function PercentBytes(bytes: seq<nat>): string
    requires forall i :: 0 <= i < |bytes| ==> bytes[i] < 256
  {
    if bytes == [] then [] else PercentByte(bytes[0]) + PercentBytes(bytes[1..])
  }

  /** A character of the output of `encodeURIComponent`. */
  predicate UriSafe(c: char) {
    Unreserved(c) || c == '%'
  }

  /**
   * `encodeURIComponent(s)`: unreserved characters are copied, every other
   * character becomes the `%XX` escapes of its UTF-8 bytes.
   */
  function EncodeUriComponent(s: string): (r: string)
    ensures forall i :: 0 <= i < |r| ==> UriSafe(r[i])
    ensures |r| >= |s|
    ensures (forall i :: 0 <= i < |s| ==> Unreserved(s[i])) ==> r == s
  {
    if s == [] then []
    else
      var head := if Unreserved(s[0]) then [s[0]] else PercentBytes(Utf8(s[0]));
      assert forall i :: 0 <= i < |head| ==> UriSafe(head[i]) by { PercentBytesSafe(Utf8(s[0])); }
      assert |head| >= 1 by { if !Unreserved(s[0]) { assert |PercentBytes(Utf8(s[0]))| >= 3; } }
      head + EncodeUriComponent(s[1..])
  }

  lemma {:induction false} PercentBytesSafe(bytes: seq<nat>)
    requires forall i :: 0 <= i < |bytes| ==> bytes[i] < 256
    ensures forall i :: 0 <= i < |PercentBytes(bytes)| ==> UriSafe(PercentBytes(bytes)[i])
    ensures |PercentBytes(bytes)| == 3 * |bytes|
  {
    if bytes != [] { PercentBytesSafe(bytes[1..]); }
  }
}

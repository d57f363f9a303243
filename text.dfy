/** The JavaScript string and number primitives the core relies on:
    `startsWith`, `includes`, `split`, `trim`, decimal printing of integers,
    `parseInt` and `encodeURIComponent`. Strings are sequences of Unicode
    scalar values. */
module Text {

  predicate StartsWith(s: string, prefix: string) {
    |prefix| <= |s| && s[..|prefix|] == prefix
  }

  /** `s.includes(t)` */
  predicate Contains(s: string, t: string) {
    StartsWith(s, t) || (s != [] && Contains(s[1..], t))
  }

  /** Every occurrence of `t` holds each of `t`'s characters, so a string
      lacking one of them does not contain `t`. */
  lemma {:induction false} NotContainsWithoutChar(s: string, t: string, k: nat)
    requires k < |t| && t[k] !in s
    ensures !Contains(s, t)
  {
    if |t| <= |s| {
      assert s[..|t|][k] == s[k];
    }
    if s != [] {
      assert t[k] !in s[1..] by {
        forall c | c in s[1..] ensures c in s { }
      }
      NotContainsWithoutChar(s[1..], t, k);
    }
  }

  lemma {:induction false} ContainsSuffix(a: string, t: string)
    ensures Contains(a + t, t)
  {
    if a == [] {
      assert a + t == t;
    } else {
      assert (a + t)[1..] == a[1..] + t;
      ContainsSuffix(a[1..], t);
    }
  }

  /** `s.split(sep)` for a one-character separator. */
  function Split(s: string, sep: char): (r: seq<string>)
    ensures |r| >= 1
  {
    if s == [] then [""]
    else if s[0] == sep then [""] + Split(s[1..], sep)
    else
      var rest := Split(s[1..], sep);
      [[s[0]] + rest[0]] + rest[1..]
  }

  lemma {:induction false} SplitWithoutSeparator(s: string, sep: char)
    requires sep !in s
    ensures Split(s, sep) == [s]
  {
    if s != [] {
      SplitWithoutSeparator(s[1..], sep);
      assert [s[0]] + s[1..] == s;
    }
  }

  /** One step of `Split`: a leading separator closes an empty piece, any
      other character joins the first piece. */
  lemma SplitCons(c: char, t: string, sep: char)
    ensures Split([c] + t, sep)
         == if c == sep then [""] + Split(t, sep) else [[c] + Split(t, sep)[0]] + Split(t, sep)[1..]
  {
    assert ([c] + t)[0] == c;
    assert ([c] + t)[1..] == t;
  }

  /** The inductive step of `SplitAtSeparator` for a character that joins
      the first piece. */
  lemma SplitAtSeparatorStep(c: char, tail: string, sep: char, b: string)
    requires c != sep
    requires Split(tail + [sep] + b, sep) == Split(tail, sep) + Split(b, sep)
    ensures Split([c] + (tail + [sep] + b), sep) == Split([c] + tail, sep) + Split(b, sep)
  {
    var left := Split(tail, sep);
    var right := Split(b, sep);
    SplitCons(c, tail + [sep] + b, sep);
    SplitCons(c, tail, sep);
    JoinFirstPiece(c, left, right);
  }

  /** Joining a character to the first piece commutes with appending more
      pieces. */
  lemma JoinFirstPiece(c: char, left: seq<string>, right: seq<string>)
    requires |left| >= 1
    ensures [[c] + (left + right)[0]] + (left + right)[1..] == ([[c] + left[0]] + left[1..]) + right
  {
    assert (left + right)[0] == left[0];
    assert (left + right)[1..] == left[1..] + right;
  }

  /** Splitting at a separator splits the two sides independently. */
  lemma {:induction false} SplitAtSeparator(a: string, sep: char, b: string)
    ensures Split(a + [sep] + b, sep) == Split(a, sep) + Split(b, sep)
  {
    if a == [] {
      assert a + [sep] + b == [sep] + b;
      SplitCons(sep, b, sep);
    } else {
      var tail := a[1..];
      assert a == [a[0]] + tail;
      assert a + [sep] + b == [a[0]] + (tail + [sep] + b);
      SplitAtSeparator(tail, sep, b);
      SplitCons(a[0], tail + [sep] + b, sep);
      SplitCons(a[0], tail, sep);
      if a[0] == sep {
        assert [""] + Split(tail, sep) + Split(b, sep) == [""] + (Split(tail, sep) + Split(b, sep));
      } else {
        SplitAtSeparatorStep(a[0], tail, sep, b);
      }
    }
  }

  /** The characters `String.prototype.trim` and `parseInt` skip: the
      ECMAScript WhiteSpace and LineTerminator productions. */
  predicate IsJsWhitespace(c: char) {
    || c == '\t' || c == '\U{000B}' || c == '\U{000C}' || c == ' ' || c == '\U{00A0}' || c == '\U{FEFF}'
    || c == '\U{1680}' || ('\U{2000}' <= c <= '\U{200A}') || c == '\U{202F}' || c == '\U{205F}'
    || c == '\U{3000}' || c == '\n' || c == '\r' || c == '\U{2028}' || c == '\U{2029}'
  }

  /** `!s.trim()`: the string is empty once trimmed. */
  predicate IsBlank(s: string) {
    forall i :: 0 <= i < |s| ==> IsJsWhitespace(s[i])
  }

  function TrimStart(s: string): (r: string)
    ensures |r| <= |s| && r == s[|s| - |r|..]
    ensures r == [] || !IsJsWhitespace(r[0])
  {
    if s != [] && IsJsWhitespace(s[0]) then TrimStart(s[1..]) else s
  }

  // ----- decimal printing -------------------------------------------------

  function DigitChar(d: nat): (c: char)
    requires d < 10
    ensures IsDecimalDigit(c) && DigitValue(c) == d
  {
    ('0' as int + d) as char
  }

  /** The value of a character as a digit in radix up to 36, or 36 when it
      is no digit at all. */
  function DigitValue(c: char): (v: nat)
    ensures v <= 36
  {
    if '0' <= c <= '9' then c as int - '0' as int
    else if 'a' <= c <= 'z' then c as int - 'a' as int + 10
    else if 'A' <= c <= 'Z' then c as int - 'A' as int + 10
    else 36
  }

  predicate IsDecimalDigit(c: char) {
    '0' <= c <= '9'
  }

  /** `String(n)` for a natural number. */
  function NatToString(n: nat): (r: string)
    ensures |r| >= 1
    ensures forall i :: 0 <= i < |r| ==> IsDecimalDigit(r[i])
    ensures r[0] == '0' <==> n == 0
  {
    if n < 10 then [DigitChar(n)] else NatToString(n / 10) + [DigitChar(n % 10)]
  }

  /** `String(i)` for an integer. */
  function IntToString(i: int): (r: string)
    ensures |r| >= 1
  {
    if i < 0 then "-" + NatToString(-i) else NatToString(i)
  }

  // ----- parseInt ---------------------------------------------------------

  /** A JavaScript number as `parseInt` and `+ 1` produce it. */
  datatype Num = Finite(n: int) | NaN

  function AddOne(x: Num): (r: Num)
    ensures r.Finite? <==> x.Finite?
  {
    match x
    case Finite(n) => Finite(n + 1)
    case NaN => NaN
  }

  /** `String(x)` */
  function NumToString(x: Num): string {
    match x
    case Finite(n) => IntToString(n)
    case NaN => "NaN"
  }

  /** The longest prefix made of digits of the given radix. */
  function DigitPrefix(s: string, radix: nat): (r: string)
    ensures |r| <= |s| && r == s[..|r|]
    ensures forall i :: 0 <= i < |r| ==> DigitValue(r[i]) < radix
  {
    if s == [] || DigitValue(s[0]) >= radix then [] else [s[0]] + DigitPrefix(s[1..], radix)
  }

  function DigitsValue(ds: string, radix: nat): nat {
    if ds == [] then 0 else DigitsValue(ds[..|ds| - 1], radix) * radix + DigitValue(ds[|ds| - 1])
  }

  /** The digits read after the sign: the longest run of digits, in radix
      16 after a "0x"/"0X" prefix and in radix 10 otherwise; NaN when the
      run is empty. */
  function ParseMagnitude(u: string): (r: Num)
    ensures r.Finite? ==> r.n >= 0
  {
    var hex := |u| >= 2 && u[0] == '0' && (u[1] == 'x' || u[1] == 'X');
    var radix := if hex then 16 else 10;
    var z := DigitPrefix(if hex then u[2..] else u, radix);
    if z == [] then NaN else Finite(DigitsValue(z, radix))
  }

  function Negate(x: Num): Num {
    match x
    case Finite(n) => Finite(-n)
    case NaN => NaN
  }

  /** `parseInt(s)` with no radix argument: leading white space is skipped
      and one sign is read before the magnitude. */
  function ParseInt(s: string): Num {
    var t := TrimStart(s);
    if |t| > 0 && t[0] == '-' then Negate(ParseMagnitude(t[1..]))
    else if |t| > 0 && t[0] == '+' then ParseMagnitude(t[1..])
    else ParseMagnitude(t)
  }

  lemma {:induction false} DigitPrefixOfDigits(s: string, radix: nat)
    requires forall i :: 0 <= i < |s| ==> DigitValue(s[i]) < radix
    ensures DigitPrefix(s, radix) == s
  {
    if s != [] {
      DigitPrefixOfDigits(s[1..], radix);
    }
  }

  lemma {:induction false} DecimalValueOfNatToString(n: nat)
    ensures DigitsValue(NatToString(n), 10) == n
  {
    var r := NatToString(n);
    if n >= 10 {
      DecimalValueOfNatToString(n / 10);
      assert r[..|r| - 1] == NatToString(n / 10);
    }
  }

  lemma ParseMagnitudeOfNatToString(n: nat)
    ensures ParseMagnitude(NatToString(n)) == Finite(n)
  {
    var r := NatToString(n);
    assert r[0] == '0' ==> |r| == 1;
    DigitPrefixOfDigits(r, 10);
    DecimalValueOfNatToString(n);
  }

  /** A string that starts with a character other than white space and a
      sign is read by `parseInt` as a magnitude alone. */
  lemma ParseUnsigned(r: string)
    requires r != [] && !IsJsWhitespace(r[0]) && r[0] != '-' && r[0] != '+'
    ensures ParseInt(r) == ParseMagnitude(r)
  {
    assert TrimStart(r) == r;
  }

  lemma DigitIsNoSpaceOrSign(c: char)
    requires IsDecimalDigit(c)
    ensures !IsJsWhitespace(c) && c != '-' && c != '+'
  {
  }

  /** What `NatToString` prints, `parseInt` reads back. */
  lemma ParseNatToString(n: nat)
    ensures ParseInt(NatToString(n)) == Finite(n)
  {
    var r := NatToString(n);
    DigitIsNoSpaceOrSign(r[0]);
    ParseUnsigned(r);
    ParseMagnitudeOfNatToString(n);
  }

  /** `parseInt(String(i)) == i` for every integer: the counter that
      `increment` stores as a string is read back exactly. */
  lemma ParseIntToString(i: int)
    ensures ParseInt(IntToString(i)) == Finite(i)
  {
    if i >= 0 {
      ParseNatToString(i);
    } else {
      var r := IntToString(i);
      assert TrimStart(r) == r;
      assert r[1..] == NatToString(-i);
      ParseMagnitudeOfNatToString(-i);
    }
  }

  /** `parseInt("NaN")` finds no digit. */
  lemma ParseNaNString()
    ensures ParseInt("NaN") == NaN
  {
    ParseUnsigned("NaN");
    assert DigitValue('N') >= 10;
    assert DigitPrefix("NaN", 10) == [];
  }

  lemma ParseNumToString(x: Num)
    ensures ParseInt(NumToString(x)) == x
  {
    match x
    case Finite(n) => ParseIntToString(n);
    case NaN => ParseNaNString();
  }

  // ----- encodeURIComponent ----------------------------------------------

  predicate IsUriUnreserved(c: char) {
    ('A' <= c <= 'Z') || ('a' <= c <= 'z') || ('0' <= c <= '9')
    || c == '-' || c == '_' || c == '.' || c == '!' || c == '~' || c == '*' || c == '\'' || c == '(' || c == ')'
  }

  /** The UTF-8 bytes of a Unicode scalar value. */
  function Utf8(cp: nat): seq<nat> {
    if cp < 0x80 then [cp]
    else if cp < 0x800 then [0xC0 + cp / 0x40, 0x80 + cp % 0x40]
    else if cp < 0x10000 then [0xE0 + cp / 0x1000, 0x80 + (cp / 0x40) % 0x40, 0x80 + cp % 0x40]
    else [0xF0 + cp / 0x40000, 0x80 + (cp / 0x1000) % 0x40, 0x80 + (cp / 0x40) % 0x40, 0x80 + cp % 0x40]
  }

  function HexDigit(d: nat): (c: char)
    requires d < 16
    ensures ('0' <= c <= '9') || ('A' <= c <= 'F')
  {
    if d < 10 then ('0' as int + d) as char else ('A' as int + d - 10) as char
  }

  function PercentEscapes(bytes: seq<nat>): (r: string)
    ensures '/' !in r
  {
    if bytes == [] then []
    else
      var b := bytes[0];
      ['%', HexDigit((b / 16) % 16), HexDigit(b % 16)] + PercentEscapes(bytes[1..])
  }

  /** `encodeURIComponent(s)`: unreserved characters stay, every other
      character becomes the percent escapes of its UTF-8 bytes. */
  function EncodeUriComponent(s: string): (r: string)
    ensures '/' !in r
  {
    if s == [] then []
    else
      (if IsUriUnreserved(s[0]) then [s[0]] else PercentEscapes(Utf8(s[0] as int)))
      + EncodeUriComponent(s[1..])
  }
}

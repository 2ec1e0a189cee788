/**
 * The slice of Go's `strings` and `strconv` packages the program uses.
 * A Go string is modelled as the sequence of its runes; where the program
 * measures or cuts a string by BYTES, `ByteLen` and `Utf8Encode` give its
 * UTF-8 form.
 */
module Text {
  import opened Wrappers

  type byte = x: int | 0 <= x < 256

  const MinInt64: int := -0x8000_0000_0000_0000
  const MaxInt64: int := 0x7FFF_FFFF_FFFF_FFFF

  /** Two to the power `n`, the factor of an exponential back-off. */
  function Pow2(n: nat): (r: nat)
    ensures r >= 1
  {
    if n == 0 then 1 else 2 * Pow2(n - 1)
  }

  // ---------------------------------------------------------------- prefixes

  predicate HasPrefix(s: string, p: string) {
    |p| <= |s| && s[..|p|] == p
  }

  predicate HasSuffix(s: string, p: string) {
    |p| <= |s| && s[|s| - |p|..] == p
  }

  /** `strings.TrimPrefix`: drop `p` once from the front when it is there. */
  function TrimPrefix(s: string, p: string): (r: string)
    ensures HasPrefix(s, p) ==> p + r == s
    ensures !HasPrefix(s, p) ==> r == s
  {
    if HasPrefix(s, p) then s[|p|..] else s
  }

  // ------------------------------------------------------------ containment

  /** `strings.Contains`, as a scan over the start positions. */
  predicate Contains(s: string, p: string)
    decreases |s|
  {
    HasPrefix(s, p) || (|s| > 0 && Contains(s[1..], p))
  }

  /** `p` occurs in `s` starting at position `i`. */
  predicate OccursAt(s: string, p: string, i: int) {
    0 <= i <= |s| - |p| && s[i..i + |p|] == p
  }

  /** `Contains` means that `p` occurs at some position of `s`. */
  lemma {:induction false} ContainsAt(s: string, p: string)
    ensures Contains(s, p) <==> exists i :: OccursAt(s, p, i)
    decreases |s|
  {
    if HasPrefix(s, p) {
      assert OccursAt(s, p, 0);
    } else if |s| == 0 {
    } else {
      ContainsAt(s[1..], p);
      if Contains(s[1..], p) {
        var i :| OccursAt(s[1..], p, i);
        assert s[1..][i..i + |p|] == s[i + 1..i + 1 + |p|];
        assert OccursAt(s, p, i + 1);
      }
      if exists i :: OccursAt(s, p, i) {
        var i :| OccursAt(s, p, i);
        assert i != 0;
        assert s[1..][i - 1..i - 1 + |p|] == s[i..i + |p|];
        assert OccursAt(s[1..], p, i - 1);
      }
    }
  }

  /** A concatenation starts with its first part and ends with its second. */
  lemma ConcatAffixes(a: string, b: string)
    ensures HasPrefix(a + b, a) && HasSuffix(a + b, b)
  {
    assert (a + b)[..|a|] == a;
    assert (a + b)[|a + b| - |b|..] == b;
  }

  /** A string that starts with `p` contains it. */
  lemma PrefixContains(s: string, p: string)
    requires HasPrefix(s, p)
    ensures Contains(s, p)
  {
  }

  /** Anything contains the empty string. */
  lemma ContainsEmpty(s: string)
    ensures Contains(s, "")
  {
    assert HasPrefix(s, "");
  }

  /** `p` is contained in `a + p + b`. */
  lemma {:induction false} ContainsInfix(a: string, p: string, b: string)
    ensures Contains(a + p + b, p)
  {
    ContainsAt(a + p + b, p);
    assert OccursAt(a + p + b, p, |a|);
  }

  /** What `b` contains, `a + b` contains. */
  lemma ContainsAppendLeft(a: string, b: string, p: string)
    requires Contains(b, p)
    ensures Contains(a + b, p)
  {
    ContainsAt(b, p);
    var i :| OccursAt(b, p, i);
    assert (a + b)[|a| + i..|a| + i + |p|] == b[i..i + |p|];
    assert OccursAt(a + b, p, |a| + i);
    ContainsAt(a + b, p);
  }

  /** What `b` ends with, `a + b` ends with. */
  lemma SuffixAppendLeft(a: string, b: string, p: string)
    requires HasSuffix(b, p)
    ensures HasSuffix(a + b, p)
  {
    assert (a + b)[|a + b| - |p|..] == b[|b| - |p|..];
  }

  /** Any of the needles occurs in `s`; the needles are tried in list order. */
  predicate ContainsAny(s: string, needles: seq<string>) {
    exists k :: 0 <= k < |needles| && Contains(s, needles[k])
  }

  // ------------------------------------------------------------- white space

  /** Go's `unicode.IsSpace`: the Latin-1 spaces and Unicode White_Space. */
  predicate IsSpace(c: char) {
    c == '\t' || c == '\n' || c == '\U{000B}' || c == '\U{000C}' || c == '\r' || c == ' '
    || c == '\U{0085}' || c == '\U{00A0}' || c == '\U{1680}'
    || ('\U{2000}' <= c <= '\U{200A}') || c == '\U{2028}' || c == '\U{2029}'
    || c == '\U{202F}' || c == '\U{205F}' || c == '\U{3000}'
  }

  function TrimLeftSpace(s: string): (r: string)
    ensures |r| <= |s| && r == s[|s| - |r|..]
    ensures |r| > 0 ==> !IsSpace(r[0])
    ensures forall i :: 0 <= i < |s| - |r| ==> IsSpace(s[i])
    decreases |s|
  {
    if |s| > 0 && IsSpace(s[0]) then TrimLeftSpace(s[1..]) else s
  }

  function TrimRightSpace(s: string): (r: string)
    ensures |r| <= |s| && r == s[..|r|]
    ensures |r| > 0 ==> !IsSpace(r[|r| - 1])
    ensures forall i :: |r| <= i < |s| ==> IsSpace(s[i])
    decreases |s|
  {
    if |s| > 0 && IsSpace(s[|s| - 1]) then TrimRightSpace(s[..|s| - 1]) else s
  }

  /**
   * `strings.TrimSpace`: the longest slice of `s` with neither a leading nor a
   * trailing space; everything cut away is space.
   */
  function TrimSpace(s: string): (r: string)
    ensures |r| <= |s|
    ensures |r| > 0 ==> !IsSpace(r[0]) && !IsSpace(r[|r| - 1])
  {
    TrimRightSpace(TrimLeftSpace(s))
  }

  /** A prefix of a suffix of `s` occurs in `s` where the suffix starts. */
  lemma PrefixOfSuffixOccurs(s: string, l: string, r: string)
    requires |l| <= |s| && l == s[|s| - |l|..]
    requires |r| <= |l| && r == l[..|r|]
    ensures OccursAt(s, r, |s| - |l|)
  {
    var k := |s| - |l|;
    assert s[k..][..|r|] == s[k..k + |r|];
  }

  /** The trimmed string is a slice of the original. */
  lemma TrimSpaceInfix(s: string)
    ensures exists i :: OccursAt(s, TrimSpace(s), i)
  {
    var l := TrimLeftSpace(s);
    var r := TrimRightSpace(l);
    PrefixOfSuffixOccurs(s, l, r);
    assert TrimSpace(s) == r;
  }

  /** A string with no space at either end is left alone. */
  lemma TrimSpaceOfTrimmed(s: string)
    requires |s| > 0 ==> !IsSpace(s[0]) && !IsSpace(s[|s| - 1])
    ensures TrimSpace(s) == s
  {
  }

  /** `TrimSpace` is idempotent. */
  lemma TrimSpaceIdempotent(s: string)
    ensures TrimSpace(TrimSpace(s)) == TrimSpace(s)
  {
    TrimSpaceOfTrimmed(TrimSpace(s));
  }

  /** A string is blank exactly when it is made of spaces only. */
  lemma {:induction false} TrimSpaceEmpty(s: string)
    ensures TrimSpace(s) == "" <==> forall i :: 0 <= i < |s| ==> IsSpace(s[i])
  {
    var l := TrimLeftSpace(s);
    if |l| > 0 {
      assert l[0] == s[|s| - |l|];
    }
  }

  // ----------------------------------------------------------------- casing

  /** ASCII lower-casing (the program's patterns are all ASCII). */
  function ToLowerChar(c: char): (r: char)
    ensures 'a' <= r <= 'z' || r == c
  {
    if 'A' <= c <= 'Z' then (c as int + 32) as char else c
  }

  function ToLower(s: string): (r: string)
    ensures |r| == |s| && forall i :: 0 <= i < |s| ==> r[i] == ToLowerChar(s[i])
  {
    seq(|s|, i requires 0 <= i < |s| => ToLowerChar(s[i]))
  }

  // ---------------------------------------------------------------- joining

  /** `strings.Join`. */
  function Join(parts: seq<string>, sep: string): (r: string)
    ensures |parts| == 0 ==> r == ""
    ensures |parts| == 1 ==> r == parts[0]
    decreases |parts|
  {
    if |parts| == 0 then ""
    else if |parts| == 1 then parts[0]
    else Join(parts[..|parts| - 1], sep) + sep + parts[|parts| - 1]
  }

  /** Joining one more part appends the separator and the part. */
  lemma JoinSnoc(parts: seq<string>, sep: string, last: string)
    requires |parts| > 0
    ensures Join(parts + [last], sep) == Join(parts, sep) + sep + last
  {
    assert (parts + [last])[..|parts|] == parts;
  }

  /** The joined string's length is the parts' lengths plus one separator between each pair. */
  lemma {:induction false} JoinLength(parts: seq<string>, sep: string)
    ensures |Join(parts, sep)| == SumLengths(parts) + (if |parts| == 0 then 0 else (|parts| - 1) * |sep|)
    decreases |parts|
  {
    if |parts| > 1 {
      var n := |parts|;
      var init := parts[..n - 1];
      JoinLength(init, sep);
      SumLengthsSnoc(init, parts[n - 1]);
      assert init + [parts[n - 1]] == parts;
      assert |Join(parts, sep)| == |Join(init, sep)| + |sep| + |parts[n - 1]|;
      assert (n - 1) * |sep| == (n - 2) * |sep| + |sep|;
    } else if |parts| == 1 {
      assert SumLengths(parts) == |parts[0]| + SumLengths(parts[1..]);
    }
  }

  function SumLengths(parts: seq<string>): nat
    decreases |parts|
  {
    if |parts| == 0 then 0 else |parts[0]| + SumLengths(parts[1..])
  }

  lemma {:induction false} SumLengthsSnoc(parts: seq<string>, last: string)
    ensures SumLengths(parts + [last]) == SumLengths(parts) + |last|
    decreases |parts|
  {
    if |parts| > 0 {
      assert (parts + [last])[1..] == parts[1..] + [last];
      SumLengthsSnoc(parts[1..], last);
    }
  }

  /** `strings.Join` of a plain concatenation (empty separator). */
  function Concat(parts: seq<string>): (r: string)
    ensures |r| == SumLengths(parts)
    decreases |parts|
  {
    if |parts| == 0 then "" else parts[0] + Concat(parts[1..])
  }

  lemma {:induction false} ConcatSnoc(parts: seq<string>, last: string)
    ensures Concat(parts + [last]) == Concat(parts) + last
    decreases |parts|
  {
    if |parts| > 0 {
      assert (parts + [last])[1..] == parts[1..] + [last];
      ConcatSnoc(parts[1..], last);
    }
  }

  /** `strings.TrimRight(s, c)` for a single cut-set character. */
  function TrimRightChar(s: string, c: char): (r: string)
    ensures |r| <= |s| && r == s[..|r|]
    ensures |r| > 0 ==> r[|r| - 1] != c
    ensures forall i :: |r| <= i < |s| ==> s[i] == c
    decreases |s|
  {
    if |s| > 0 && s[|s| - 1] == c then TrimRightChar(s[..|s| - 1], c) else s
  }

  // ---------------------------------------------------------------- numbers

  function DigitChar(d: nat): (c: char)
    requires d < 10
    ensures '0' <= c <= '9' && c as int - '0' as int == d
  {
    (d + '0' as int) as char
  }

  predicate IsDigit(c: char) { '0' <= c <= '9' }

  predicate AllDigits(s: string) { forall i :: 0 <= i < |s| ==> IsDigit(s[i]) }

  /** Decimal digits of a natural number, most significant first, no leading zero. */
  function NatToString(n: nat): (r: string)
    ensures |r| > 0 && AllDigits(r)
    ensures |r| > 1 ==> r[0] != '0'
    decreases n
  {
    if n < 10 then [DigitChar(n)] else NatToString(n / 10) + [DigitChar(n % 10)]
  }

  /** `strconv.Itoa` (also how `%d` renders an integer). */
  function Itoa(n: int): (r: string)
    ensures |r| > 0
    ensures n < 0 <==> r[0] == '-'
  {
    if n < 0 then "-" + NatToString(-n) else NatToString(n)
  }

  /** Go's `%` on integers: division truncates toward zero, so the remainder takes the dividend's sign. */
  function GoRem(a: int, b: int): (r: int)
    requires b > 0
    ensures -b < r < b
    ensures a >= 0 ==> r == a % b
    ensures a < 0 ==> r <= 0
  {
    if a >= 0 then a % b else -((-a) % b)
  }

  /** The value of a run of digits, read left to right. */
  function DigitsValue(s: string): nat
    requires AllDigits(s)
    decreases |s|
  {
    if |s| == 0 then 0 else DigitsValue(s[..|s| - 1]) * 10 + (s[|s| - 1] as int - '0' as int)
  }

  lemma {:induction false} DigitsOfNat(n: nat)
    ensures DigitsValue(NatToString(n)) == n
    decreases n
  {
    if n >= 10 {
      var s := NatToString(n);
      DigitsOfNat(n / 10);
      assert s[..|s| - 1] == NatToString(n / 10);
    }
  }

  /**
   * `strconv.Atoi` on a 64-bit platform: an optional sign, at least one
   * decimal digit, and a value that fits in an int64; anything else errors.
   */
  function Atoi(s: string): (r: Option<int>)
    ensures r.Some? ==> MinInt64 <= r.value <= MaxInt64
    ensures |s| == 0 ==> r.None?
  {
    var signed := |s| > 0 && (s[0] == '-' || s[0] == '+');
    var digits := if signed then s[1..] else s;
    if |digits| == 0 || !AllDigits(digits) then None
    else
      var v: int := if signed && s[0] == '-' then -(DigitsValue(digits) as int) else DigitsValue(digits) as int;
      if MinInt64 <= v <= MaxInt64 then Some(v) else None
  }

  /** Round trip: `Atoi` reads back what `Itoa` wrote, for every int64. */
  lemma AtoiItoa(n: int)
    requires MinInt64 <= n <= MaxInt64
    ensures Atoi(Itoa(n)) == Some(n)
  {
    if n < 0 {
      var d := NatToString(-n);
      assert Itoa(n) == "-" + d;
      assert Itoa(n)[1..] == d;
      DigitsOfNat(-n);
    } else {
      var d := NatToString(n);
      assert IsDigit(d[0]);
      DigitsOfNat(n);
    }
  }

  /** `Itoa` is injective, since `Atoi` inverts it. */
  lemma ItoaInjective(a: int, b: int)
    requires MinInt64 <= a <= MaxInt64 && MinInt64 <= b <= MaxInt64
    requires Itoa(a) == Itoa(b)
    ensures a == b
  {
    AtoiItoa(a);
    AtoiItoa(b);
  }

  // ------------------------------------------------------------------ UTF-8

  /** Number of bytes UTF-8 uses for one rune. */
  function Utf8Width(c: char): (w: nat)
    ensures 1 <= w <= 4
  {
    var v := c as int;
    if v < 0x80 then 1 else if v < 0x800 then 2 else if v < 0x1_0000 then 3 else 4
  }

  /** Go's `len(s)`: the byte length of the UTF-8 form. */
  function ByteLen(s: string): (n: nat)
    ensures n >= |s|
    decreases |s|
  {
    if |s| == 0 then 0 else ByteLen(s[..|s| - 1]) + Utf8Width(s[|s| - 1])
  }

  lemma {:induction false} ByteLenAppend(a: string, b: string)
    ensures ByteLen(a + b) == ByteLen(a) + ByteLen(b)
    decreases |b|
  {
    if |b| > 0 {
      assert (a + b)[..|a + b| - 1] == a + b[..|b| - 1];
      ByteLenAppend(a, b[..|b| - 1]);
    } else {
      assert a + b == a;
    }
  }

  /** A string made of ASCII only has as many bytes as runes. */
  lemma {:induction false} ByteLenAscii(s: string)
    requires forall i :: 0 <= i < |s| ==> s[i] as int < 0x80
    ensures ByteLen(s) == |s|
    decreases |s|
  {
    if |s| > 0 { ByteLenAscii(s[..|s| - 1]); }
  }

  function EncodeRune(c: char): (r: seq<byte>)
    ensures |r| == Utf8Width(c)
  {
    var v := c as int;
    if v < 0x80 then [v]
    else if v < 0x800 then [0xC0 + v / 64, 0x80 + v % 64]
    else if v < 0x1_0000 then [0xE0 + v / 4096, 0x80 + (v / 64) % 64, 0x80 + v % 64]
    else [0xF0 + v / 262144, 0x80 + (v / 4096) % 64, 0x80 + (v / 64) % 64, 0x80 + v % 64]
  }

  /** The UTF-8 bytes of a string. */
  function Utf8Encode(s: string): (r: seq<byte>)
    decreases |s|
  {
    if |s| == 0 then [] else Utf8Encode(s[..|s| - 1]) + EncodeRune(s[|s| - 1])
  }

  /** The UTF-8 form is exactly `ByteLen` bytes long. */
  lemma {:induction false} Utf8EncodeLength(s: string)
    ensures |Utf8Encode(s)| == ByteLen(s)
    decreases |s|
  {
    if |s| > 0 { Utf8EncodeLength(s[..|s| - 1]); }
  }

  lemma {:induction false} Utf8EncodeAppend(a: string, b: string)
    ensures Utf8Encode(a + b) == Utf8Encode(a) + Utf8Encode(b)
    decreases |b|
  {
    if |b| > 0 {
      assert (a + b)[..|a + b| - 1] == a + b[..|b| - 1];
      Utf8EncodeAppend(a, b[..|b| - 1]);
    } else {
      assert a + b == a;
    }
  }

  // ------------------------------------------------------------- formatting

  /** A format string with a single `%s` verb: the text before the verb and after it. */
  datatype Template = Template(head: string, tail: string)

  /** `fmt.Sprintf(t, arg)`: the verb replaced by `arg`. */
  function Fill(t: Template, arg: string): (r: string)
    ensures |r| == |t.head| + |arg| + |t.tail|
    ensures HasPrefix(r, t.head) && HasSuffix(r, t.tail) && OccursAt(r, arg, |t.head|)
  {
    t.head + arg + t.tail
  }

  /**
   * `fmt.Sprintf` of a format whose verbs are all `%s`: `pieces` is the text
   * around the verbs, and the verbs are replaced by `args` in order.
   */
  function Format(pieces: seq<string>, args: seq<string>): (r: string)
    requires |pieces| == |args| + 1
    ensures HasPrefix(r, pieces[0])
    decreases |args|
  {
    if |args| == 0 then pieces[0]
    else
      var r := pieces[0] + args[0] + Format(pieces[1..], args[1..]);
      assert r[..|pieces[0]|] == pieces[0];
      r
  }

  /** Every argument occurs in the formatted text. */
  lemma {:induction false} FormatContains(pieces: seq<string>, args: seq<string>, k: int)
    requires |pieces| == |args| + 1 && 0 <= k < |args|
    ensures Contains(Format(pieces, args), args[k])
    decreases k
  {
    var rest := Format(pieces[1..], args[1..]);
    assert Format(pieces, args) == pieces[0] + args[0] + rest;
    if k == 0 {
      ContainsInfix(pieces[0], args[0], rest);
    } else {
      FormatContains(pieces[1..], args[1..], k - 1);
      ContainsAppendLeft(pieces[0] + args[0], rest, args[k]);
    }
  }

  /** The formatted text ends with the last argument and the text after the last verb. */
  lemma {:induction false} FormatEnds(pieces: seq<string>, args: seq<string>)
    requires |pieces| == |args| + 1 && |args| > 0
    ensures HasSuffix(Format(pieces, args), args[|args| - 1] + pieces[|args|])
    decreases |args|
  {
    var rest := Format(pieces[1..], args[1..]);
    assert Format(pieces, args) == pieces[0] + args[0] + rest;
    if |args| == 1 {
      assert rest == pieces[1];
      assert pieces[0] + args[0] + rest == pieces[0] + (args[0] + pieces[1]);
      ConcatAffixes(pieces[0], args[0] + pieces[1]);
    } else {
      FormatEnds(pieces[1..], args[1..]);
      SuffixAppendLeft(pieces[0] + args[0], rest, args[|args| - 1] + pieces[|args|]);
    }
  }

  /** Different arguments give different texts: the argument can be read back. */
  lemma FillInjective(t: Template, a: string, b: string)
    requires Fill(t, a) == Fill(t, b)
    ensures a == b
  {
    var r := Fill(t, a);
    assert |a| == |b|;
    assert a == r[|t.head|..|t.head| + |a|] == b;
  }
}

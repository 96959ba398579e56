/** The handful of Python `str` and `bytes` operations the modelled code relies on,
    stated over `seq<char>`: whitespace stripping, ASCII lower-casing, substring
    search, hexadecimal and decimal formatting, ordering, sorting, splitting,
    joining and URL quoting. */
module Text {

  type byte = x: int | 0 <= x < 256

  // ---------------------------------------------------------------- whitespace

  /** The characters Python's `str.isspace()` accepts, by code point. */
  predicate IsSpace(c: char) {
    var n := c as int;
    (9 <= n <= 13) || (28 <= n <= 32) || n == 0x85 || n == 0xA0 || n == 0x1680
    || (0x2000 <= n <= 0x200A) || n == 0x2028 || n == 0x2029 || n == 0x202F
    || n == 0x205F || n == 0x3000
  }

  function StripLeft(s: string): (r: string)
    ensures |r| <= |s| && r == s[|s| - |r|..]
    ensures r == [] || !IsSpace(r[0])
    ensures forall i :: 0 <= i < |s| - |r| ==> IsSpace(s[i])
  {
    if s != [] && IsSpace(s[0]) then StripLeft(s[1..]) else s
  }

  function StripRight(s: string): (r: string)
    ensures |r| <= |s| && r == s[..|r|]
    ensures r == [] || !IsSpace(r[|r| - 1])
    ensures forall i :: |r| <= i < |s| ==> IsSpace(s[i])
  {
    if s != [] && IsSpace(s[|s| - 1]) then StripRight(s[..|s| - 1]) else s
  }

  /** `s.strip()`: the longest infix with no surrounding whitespace. */
  function Strip(s: string): string {
    StripRight(StripLeft(s))
  }

  // ---------------------------------------------------------------- case

  function LowerChar(c: char): char {
    if 'A' <= c <= 'Z' then (c as int + 32) as char else c
  }

  /** `s.lower()` on the ASCII letters. */
  function Lower(s: string): (r: string)
    ensures |r| == |s|
    ensures forall i :: 0 <= i < |s| ==> r[i] == LowerChar(s[i])
  {
    seq(|s|, i requires 0 <= i < |s| => LowerChar(s[i]))
  }

  lemma LowerIdempotent(s: string)
    ensures Lower(Lower(s)) == Lower(s)
  {
  }

  // ---------------------------------------------------------------- search

  /** `sub` starts at index `k` of `s`. */
  predicate OccursAt(s: string, sub: string, k: int) {
    0 <= k && k + |sub| <= |s| && s[k..k + |sub|] == sub
  }

  /** The first index at or after `i` where `sub` occurs, or -1. */
  function FindFrom(s: string, sub: string, i: nat): (r: int)
    decreases |s| - i
    ensures r == -1 || (i <= r && OccursAt(s, sub, r))
    ensures forall k :: i <= k && (r == -1 || k < r) ==> !OccursAt(s, sub, k)
  {
    if i + |sub| > |s| then -1
    else if s[i..i + |sub|] == sub then i
    else FindFrom(s, sub, i + 1)
  }

  /** `s.find(sub)`, which is also `s.index(sub)` whenever `sub in s`. */
  function Find(s: string, sub: string): int {
    FindFrom(s, sub, 0)
  }

  /** `sub in s`. */
  predicate Contains(s: string, sub: string) {
    Find(s, sub) >= 0
  }

  lemma ContainsIff(s: string, sub: string)
    ensures Contains(s, sub) <==> exists k :: OccursAt(s, sub, k)
  {
    if Contains(s, sub) {
      assert OccursAt(s, sub, Find(s, sub));
    }
  }

  /** The text of at most `width` characters right after the first occurrence of
      `marker`, clipped at the end of `s` as a Python slice is, or "" when `marker`
      does not occur. */
  function FieldAfter(s: string, marker: string, width: nat): (r: string)
    ensures |r| <= width
    ensures (forall k :: !OccursAt(s, marker, k)) ==> r == ""
    ensures forall k :: OccursAt(s, marker, k) && (forall j :: 0 <= j < k ==> !OccursAt(s, marker, j))
              ==> r == s[k + |marker|..Min(k + |marker| + width, |s|)]
  {
    var k := Find(s, marker);
    if k < 0 then "" else s[k + |marker|..Min(k + |marker| + width, |s|)]
  }

  function Min(a: int, b: int): int {
    if a <= b then a else b
  }

  // ---------------------------------------------------------------- hexadecimal

  /** The value of a hexadecimal digit of either case, or -1. */
  function HexDigitValue(c: char): int {
    if '0' <= c <= '9' then c as int - '0' as int
    else if 'A' <= c <= 'F' then c as int - 'A' as int + 10
    else if 'a' <= c <= 'f' then c as int - 'a' as int + 10
    else -1
  }

  predicate IsHexDigit(c: char) {
    HexDigitValue(c) >= 0
  }

  predicate IsUpperHexDigit(c: char) {
    ('0' <= c <= '9') || ('A' <= c <= 'F')
  }

  function UpperHexChar(d: nat): (c: char)
    requires d < 16
    ensures IsUpperHexDigit(c) && HexDigitValue(c) == d
  {
    if d < 10 then ('0' as int + d) as char else ('A' as int + d - 10) as char
  }

  function LowerHexChar(d: nat): (c: char)
    requires d < 16
    ensures HexDigitValue(c) == d
  {
    if d < 10 then ('0' as int + d) as char else ('a' as int + d - 10) as char
  }

  function Pow16(k: nat): (r: nat)
    ensures r >= 1
  {
    if k == 0 then 1 else 16 * Pow16(k - 1)
  }

  /** The number a digit string denotes, read most significant digit first. */
  function HexValue(s: string): int {
    if s == [] then 0 else HexValue(s[..|s| - 1]) * 16 + HexDigitValue(s[|s| - 1])
  }

  /** The upper-case hexadecimal digits of `n` without leading zeros ("0" for 0). */
  function UpperHex(n: nat): (r: string)
    ensures 1 <= |r|
    ensures forall i :: 0 <= i < |r| ==> IsUpperHexDigit(r[i])
    ensures HexValue(r) == n
    ensures n < Pow16(|r|) && (|r| == 1 || Pow16(|r| - 1) <= n)
  {
    if n < 16 then [UpperHexChar(n)]
    else
      var q := UpperHex(n / 16);
      var r := q + [UpperHexChar(n % 16)];
      assert r[..|r| - 1] == q;
      r
  }

  function Zeros(k: nat): (r: string)
    ensures |r| == k && forall i :: 0 <= i < k ==> r[i] == '0'
  {
    seq(k, i => '0')
  }

  /** Left-pads a digit string with zeros to at least `width` characters. */
  function PadZeros(digits: string, width: nat): (r: string)
    ensures |r| == if |digits| < width then width else |digits|
    ensures r == Zeros(|r| - |digits|) + digits
  {
    if |digits| < width then Zeros(width - |digits|) + digits else Zeros(0) + digits
  }

  lemma {:induction false} HexValueZeros(k: nat)
    ensures HexValue(Zeros(k)) == 0
  {
    if k > 0 {
      assert Zeros(k)[..k - 1] == Zeros(k - 1);
      HexValueZeros(k - 1);
    }
  }

  lemma {:induction false} HexValueLeadingZeros(k: nat, s: string)
    ensures HexValue(Zeros(k) + s) == HexValue(s)
    decreases |s|
  {
    if s == [] {
      assert Zeros(k) + s == Zeros(k);
      HexValueZeros(k);
    } else {
      var t := Zeros(k) + s;
      assert t[..|t| - 1] == Zeros(k) + s[..|s| - 1];
      HexValueLeadingZeros(k, s[..|s| - 1]);
    }
  }

  /** Python's `f"{n:0{width}X}"`: upper-case hexadecimal, zero-padded to `width`
      characters, a minus sign counting towards the width. */
  function FormatHex(n: int, width: nat): string {
    if n >= 0 then PadZeros(UpperHex(n), width)
    else "-" + PadZeros(UpperHex(-n), if width > 0 then width - 1 else 0)
  }

  /** For a non-negative `n` below 16^width the rendering is exactly `width`
      upper-case digits whose value is `n`. */
  lemma FormatHexFixedWidth(n: int, width: nat)
    requires 1 <= width && 0 <= n < Pow16(width)
    ensures |FormatHex(n, width)| == width
    ensures forall i :: 0 <= i < width ==> IsUpperHexDigit(FormatHex(n, width)[i])
    ensures HexValue(FormatHex(n, width)) == n
  {
    var d := UpperHex(n);
    if |d| > width {
      Pow16Monotone(width, |d| - 1);
      assert false;
    }
    HexValueLeadingZeros(width - |d|, d);
  }

  lemma {:induction false} Pow16Monotone(a: nat, b: nat)
    requires a <= b
    ensures Pow16(a) <= Pow16(b)
    decreases b - a
  {
    if a < b {
      Pow16Monotone(a, b - 1);
    }
  }

  // ---------------------------------------------------------------- decimal

  function DecimalDigits(n: nat): (r: string)
    ensures 1 <= |r|
    ensures forall i :: 0 <= i < |r| ==> '0' <= r[i] <= '9'
  {
    if n < 10 then [('0' as int + n) as char]
    else DecimalDigits(n / 10) + [('0' as int + n % 10) as char]
  }

  /** Python's `str(n)` for an integer. */
  function Decimal(n: int): string {
    if n >= 0 then DecimalDigits(n) else "-" + DecimalDigits(-n)
  }

  // ---------------------------------------------------------------- ordering

  /** Python's `a < b` on strings: lexicographic by code point. */
  predicate StrLess(a: string, b: string) {
    if a == [] then b != []
    else if b == [] then false
    else if a[0] != b[0] then a[0] < b[0]
    else StrLess(a[1..], b[1..])
  }

  lemma {:induction false} StrLessIrreflexive(a: string)
    ensures !StrLess(a, a)
  {
    if a != [] {
      StrLessIrreflexive(a[1..]);
    }
  }

  lemma {:induction false} StrLessTransitive(a: string, b: string, c: string)
    requires StrLess(a, b) && StrLess(b, c)
    ensures StrLess(a, c)
  {
    if a != [] && b != [] && c != [] && a[0] == b[0] && b[0] == c[0] {
      StrLessTransitive(a[1..], b[1..], c[1..]);
    }
  }

  lemma {:induction false} StrLessTotal(a: string, b: string)
    ensures a == b || StrLess(a, b) || StrLess(b, a)
  {
    if a != [] && b != [] && a[0] == b[0] {
      StrLessTotal(a[1..], b[1..]);
      if a[1..] == b[1..] {
        assert a == [a[0]] + a[1..] && b == [b[0]] + b[1..];
      }
    }
  }

  predicate SortedStrings(s: seq<string>) {
    forall i, j :: 0 <= i < j < |s| ==> !StrLess(s[j], s[i])
  }

  function InsertString(x: string, s: seq<string>): (r: seq<string>)
    requires SortedStrings(s)
    ensures SortedStrings(r) && multiset(r) == multiset(s) + multiset{x}
  {
    if s == [] then [x]
    else if !StrLess(s[0], x) then
      forall j | 0 < j < |s| ensures !StrLess(s[j], x) {
        StrLessTotal(s[0], x);
        if StrLess(s[j], x) && StrLess(x, s[0]) { StrLessTransitive(s[j], x, s[0]); }
      }
      [x] + s
    else
      var t := InsertString(x, s[1..]);
      forall j | 0 <= j < |t| ensures !StrLess(t[j], s[0]) {
        assert t[j] in multiset(t);
        if t[j] == x {
          if StrLess(x, s[0]) { StrLessTransitive(x, s[0], x); StrLessIrreflexive(x); }
        } else {
          assert t[j] in s[1..];
          var k :| 0 <= k < |s[1..]| && s[1..][k] == t[j];
          assert s[k + 1] == t[j];
        }
      }
      assert s == [s[0]] + s[1..];
      [s[0]] + t
  }

  /** Python's `sorted(...)` on strings. */
  function SortStrings(xs: seq<string>): (r: seq<string>)
    ensures SortedStrings(r) && multiset(r) == multiset(xs)
  {
    if xs == [] then []
    else
      assert xs == [xs[0]] + xs[1..];
      InsertString(xs[0], SortStrings(xs[1..]))
  }

  // ---------------------------------------------------------------- split, join, replace

  /** `sep.join(parts)`. */
  function Join(parts: seq<string>, sep: string): string {
    if parts == [] then ""
    else if |parts| == 1 then parts[0]
    else parts[0] + sep + Join(parts[1..], sep)
  }

  /** `s.split(c)` for a one-character separator. */
  function Split(s: string, c: char): (r: seq<string>)
    ensures |r| >= 1
    decreases |s|
  {
    var i := Find(s, [c]);
    if i < 0 then [s] else [s[..i]] + Split(s[i + 1..], c)
  }

  /** `s.replace(a, b)` for single characters. */
  function ReplaceChar(s: string, a: char, b: char): (r: string)
    ensures |r| == |s|
    ensures forall i :: 0 <= i < |s| ==> r[i] == if s[i] == a then b else s[i]
  {
    seq(|s|, i requires 0 <= i < |s| => if s[i] == a then b else s[i])
  }

  /** `s.replace(a, "")` for a single character. */
  function RemoveChar(s: string, a: char): (r: string)
    ensures forall i :: 0 <= i < |r| ==> r[i] != a
    ensures |r| <= |s|
  {
    if s == [] then [] else (if s[0] == a then [] else [s[0]]) + RemoveChar(s[1..], a)
  }

  lemma {:induction false} RemoveAbsentChar(s: string, a: char)
    requires forall i :: 0 <= i < |s| ==> s[i] != a
    ensures RemoveChar(s, a) == s
  {
    if s != [] {
      RemoveAbsentChar(s[1..], a);
    }
  }

  // ---------------------------------------------------------------- bytes

  /** `repr(b)` of a Python `bytes` value. */
  function BytesRepr(b: seq<byte>): string {
    var quote := if ByteIn(b, 0x27) && !ByteIn(b, 0x22) then '"' else '\'';
    "b" + [quote] + BytesReprBody(b, quote) + [quote]
  }

  predicate ByteIn(b: seq<byte>, x: byte) {
    exists i :: 0 <= i < |b| && b[i] == x
  }

  function BytesReprBody(b: seq<byte>, quote: char): string {
    if b == [] then ""
    else
      var x := b[0];
      var here :=
        if x == quote as int || x == 0x5C then ['\\', x as char]
        else if x == 0x09 then "\\t"
        else if x == 0x0A then "\\n"
        else if x == 0x0D then "\\r"
        else if 0x20 <= x < 0x7F then [x as char]
        else ['\\', 'x', LowerHexChar(x / 16), LowerHexChar(x % 16)];
      here + BytesReprBody(b[1..], quote)
  }

  /** `b.hex()`: two lower-case digits per byte. */
  function BytesHex(b: seq<byte>): (r: string)
    ensures |r| == 2 * |b|
    ensures forall i :: 0 <= i < |r| ==> IsHexDigit(r[i])
  {
    if b == [] then "" else [LowerHexChar(b[0] / 16), LowerHexChar(b[0] % 16)] + BytesHex(b[1..])
  }

  /** The ASCII whitespace `bytes.fromhex` skips between digit pairs. */
  predicate IsAsciiSpace(c: char) {
    c == ' ' || c == '\t' || c == '\n' || c == '\r' || c == '\U{0B}' || c == '\U{0C}'
  }

  /** `bytes.fromhex(s)`: pairs of hexadecimal digits, optionally separated by
      ASCII whitespace; `None` where Python raises `ValueError`. */
  function FromHex(s: string): (r: Option<seq<byte>>)
    ensures r.Some? ==> 2 * |r.value| <= |s|
  {
    if s == [] then Some([])
    else if IsAsciiSpace(s[0]) then FromHex(s[1..])
    else if |s| < 2 || !IsHexDigit(s[0]) || !IsHexDigit(s[1]) then None
    else
      match FromHex(s[2..])
      case None => None
      case Some(rest) => Some([(16 * HexDigitValue(s[0]) + HexDigitValue(s[1])) as byte] + rest)
  }

  /** Decoding what `bytes.hex()` produced gives the bytes back. */
  lemma {:induction false} FromHexOfBytesHex(b: seq<byte>)
    ensures FromHex(BytesHex(b)) == Some(b)
  {
    if b != [] {
      var s := BytesHex(b);
      assert s[2..] == BytesHex(b[1..]);
      FromHexOfBytesHex(b[1..]);
      assert b == [b[0]] + b[1..];
    }
  }

  // ---------------------------------------------------------------- URL quoting

  /** The UTF-8 encoding of one character. */
  function Utf8(c: char): (r: seq<byte>)
    ensures 1 <= |r| <= 4
  {
    var n := c as int;
    if n < 0x80 then [n]
    else if n < 0x800 then [0xC0 + n / 64, 0x80 + n % 64]
    else if n < 0x10000 then [0xE0 + n / 4096, 0x80 + (n / 64) % 64, 0x80 + n % 64]
    else [0xF0 + n / 262144, 0x80 + (n / 4096) % 64, 0x80 + (n / 64) % 64, 0x80 + n % 64]
  }

  /** The characters `urllib.parse.quote` leaves alone with its default `safe="/"`. */
  predicate QuoteSafe(c: char) {
    ('A' <= c <= 'Z') || ('a' <= c <= 'z') || ('0' <= c <= '9')
    || c == '_' || c == '.' || c == '-' || c == '~' || c == '/'
  }

  function PercentEncode(b: seq<byte>): (r: string)
    ensures |r| == 3 * |b|
  {
    if b == [] then "" else ['%', UpperHexChar(b[0] / 16), UpperHexChar(b[0] % 16)] + PercentEncode(b[1..])
  }

  /** `urllib.parse.quote(s)`. */
  function Quote(s: string): (r: string)
    ensures |r| >= |s|
  {
    if s == [] then ""
    else (if QuoteSafe(s[0]) then [s[0]] else PercentEncode(Utf8(s[0]))) + Quote(s[1..])
  }

  // ---------------------------------------------------------------- options

  datatype Option<+T> = None | Some(value: T)

  /** Python's truth value of a `str | None`. */
  predicate Truthy(s: Option<string>) {
    s.Some? && s.value != ""
  }

  /** Python's `min(a, b)` on numbers. */
  function RMin(a: real, b: real): (r: real)
    ensures r <= a && r <= b && (r == a || r == b)
  {
    if a <= b then a else b
  }
}

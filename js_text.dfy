/** The small part of JavaScript's string and number library that the modelled code
    relies on: lower-casing, `includes`, `join`, `indexOf`/`replace`, `slice`, `parseInt`,
    number-to-string and `encodeURIComponent`, written out over `seq<char>`. */
module JsText {
  import opened Wrappers

  // ---------------------------------------------------------------- characters

  predicate IsAsciiUpper(c: char) { 'A' <= c <= 'Z' }
  predicate IsAsciiLower(c: char) { 'a' <= c <= 'z' }
  predicate IsDigit(c: char) { '0' <= c <= '9' }

  /** `toLowerCase`, restricted to the ASCII letters. */
  function LowerChar(c: char): char {
    if IsAsciiUpper(c) then (c as int + 32) as char else c
  }

  function Lower(s: string): (r: string)
    ensures |r| == |s|
    ensures forall i :: 0 <= i < |s| ==> r[i] == LowerChar(s[i])
  {
    seq(|s|, i requires 0 <= i < |s| => LowerChar(s[i]))
  }

  /** The characters of ECMAScript's WhiteSpace and LineTerminator productions: what the
      regular-expression class `\s` matches and what `parseInt` skips. */
  predicate IsJsSpace(c: char) {
    c == ' ' || c == '\t' || c == '\n' || c == '\r' || c == '\U{0B}' || c == '\U{0C}'
    || c == '\U{A0}' || c == '\U{1680}' || ('\U{2000}' <= c <= '\U{200A}')
    || c == '\U{2028}' || c == '\U{2029}' || c == '\U{202F}' || c == '\U{205F}'
    || c == '\U{3000}' || c == '\U{FEFF}'
  }

  // ---------------------------------------------------------------- searching

  /** `hay.includes(needle)`. */
  predicate Includes(hay: string, needle: string)
    decreases |hay|
  {
    needle <= hay || (|hay| > 0 && Includes(hay[1..], needle))
  }

  /** `Includes` holds exactly when `needle` occurs at some position of `hay`. */
  lemma {:induction false} IncludesAt(hay: string, needle: string)
    ensures Includes(hay, needle) <==> exists i :: 0 <= i <= |hay| && needle <= hay[i..]
    decreases |hay|
  {
    if needle <= hay {
      assert hay[0..] == hay;
    } else if |hay| > 0 {
      IncludesAt(hay[1..], needle);
      if exists i :: 0 <= i <= |hay| && needle <= hay[i..] {
        var i :| 0 <= i <= |hay| && needle <= hay[i..];
        assert i != 0 by { assert hay[0..] == hay; }
        assert hay[1..][i - 1..] == hay[i..];
      }
      if Includes(hay[1..], needle) {
        var i :| 0 <= i <= |hay[1..]| && needle <= hay[1..][i..];
        assert hay[1..][i..] == hay[i + 1..];
      }
    } else {
      forall i | 0 <= i <= |hay| ensures !(needle <= hay[i..]) {
        assert hay[i..] == hay;
      }
    }
  }

  /** A string occurs in anything built around it. */
  lemma IncludesMiddle(a: string, x: string, b: string)
    ensures Includes(a + x + b, x)
  {
    var w := a + x + b;
    assert w[|a|..][..|x|] == x;
    IncludesAt(w, x);
  }

  /** Both variable parts of `a + x + m + y` occur in it. */
  lemma IncludesParts(a: string, x: string, m: string, y: string)
    ensures Includes(a + x + m + y, x) && Includes(a + x + m + y, y)
  {
    IncludesMiddle(a, x, m + y);
    assert a + x + (m + y) == a + x + m + y;
    IncludesMiddle(a + x + m, y, "");
    assert a + x + m + y + "" == a + x + m + y;
  }

  /** `s.indexOf(pat)`, with `None` for -1. */
  function IndexOf(s: string, pat: string): (r: Option<nat>)
    ensures r.Some? ==> r.value + |pat| <= |s| && pat <= s[r.value..]
    ensures r.Some? ==> forall k :: 0 <= k < r.value ==> !(pat <= s[k..])
    ensures r.None? ==> forall k :: 0 <= k <= |s| ==> !(pat <= s[k..])
    decreases |s|
  {
    if pat <= s then Some(0)
    else if |s| == 0 then None
    else
      match IndexOf(s[1..], pat)
      case None =>
        assert forall k :: 1 <= k <= |s| ==> s[k..] == s[1..][k - 1..];
        None
      case Some(i) =>
        assert forall k :: 1 <= k <= i + 1 ==> s[k..] == s[1..][k - 1..];
        Some(i + 1)
  }

  /** `s.replace(pat, rep)` with a string pattern: only the first occurrence is replaced,
      and a string without the pattern is returned unchanged. The `$`-patterns of a
      replacement string are not interpreted (no replacement used here contains `$`). */
  function ReplaceFirst(s: string, pat: string, rep: string): (r: string)
    ensures IndexOf(s, pat).None? ==> r == s
    ensures IndexOf(s, pat).Some? ==>
      var i := IndexOf(s, pat).value; r == s[..i] + rep + s[i + |pat|..]
  {
    match IndexOf(s, pat)
    case None => s
    case Some(i) => s[..i] + rep + s[i + |pat|..]
  }

  /** `parts.join(sep)`: nothing for no parts, otherwise the text starts with the first
      part. */
  function Join(parts: seq<string>, sep: string): (r: string)
    ensures |parts| == 0 ==> r == ""
    ensures |parts| > 0 ==> parts[0] <= r
  {
    if |parts| == 0 then ""
    else if |parts| == 1 then parts[0]
    else parts[0] + sep + Join(parts[1..], sep)
  }

  /** A join of parts is empty only when every part is. */
  lemma {:induction false} JoinNonEmpty(parts: seq<string>, sep: string, k: nat)
    requires k < |parts| && parts[k] != ""
    ensures Join(parts, sep) != ""
    ensures |Join(parts, sep)| >= |parts[k]|
    decreases |parts|
  {
    if |parts| > 1 && k > 0 {
      JoinNonEmpty(parts[1..], sep, k - 1);
    }
  }

  /** Every part occurs inside the join. */
  lemma {:induction false} JoinIncludesPart(parts: seq<string>, sep: string, k: nat)
    requires k < |parts|
    ensures Includes(Join(parts, sep), parts[k])
    decreases |parts|
  {
    var j := Join(parts, sep);
    if k == 0 {
      assert parts[0] <= j;
      IncludesAt(j, parts[0]);
      assert j[0..] == j;
    } else {
      JoinIncludesPart(parts[1..], sep, k - 1);
      var rest := Join(parts[1..], sep);
      assert j == (parts[0] + sep) + rest;
      IncludesAt(rest, parts[k]);
      var i :| 0 <= i <= |rest| && parts[k] <= rest[i..];
      var off := |parts[0] + sep|;
      assert j[off + i..] == rest[i..];
      IncludesAt(j, parts[k]);
    }
  }

  // ---------------------------------------------------------------- numbers

  /** A JavaScript number as this code uses it: an integer, or `NaN` (what `parseInt`
      returns when no digit follows). Precision loss beyond 2^53 is not modelled. */
  datatype Num = Int(v: int) | NaN {
    function Plus(o: Num): Num {
      if Int? && o.Int? then Int(v + o.v) else NaN
    }
    function Minus(o: Num): Num {
      if Int? && o.Int? then Int(v - o.v) else NaN
    }
    function Times(o: Num): Num {
      if Int? && o.Int? then Int(v * o.v) else NaN
    }
  }

  function DigitValue(c: char): nat
    requires IsDigit(c)
  {
    c as int - '0' as int
  }

  predicate IsHexDigit(c: char) {
    IsDigit(c) || 'a' <= c <= 'f' || 'A' <= c <= 'F'
  }

  function HexValue(c: char): (r: nat)
    requires IsHexDigit(c)
    ensures r < 16
  {
    if IsDigit(c) then DigitValue(c)
    else if 'a' <= c <= 'f' then c as int - 'a' as int + 10
    else c as int - 'A' as int + 10
  }

  /** The number of leading characters of `s` that satisfy `digit`. */
  function LeadingCount(s: string, digit: char -> bool): (n: nat)
    ensures n <= |s|
    ensures forall i :: 0 <= i < n ==> digit(s[i])
    ensures n < |s| ==> !digit(s[n])
    decreases |s|
  {
    if |s| > 0 && digit(s[0]) then 1 + LeadingCount(s[1..], digit) else 0
  }

  /** The value of a string of digits in base `radix`, most significant first. */
  function DigitsValue(ds: string, radix: nat): nat
    requires radix == 10 || radix == 16
    requires forall i :: 0 <= i < |ds| ==> IsHexDigit(ds[i])
    decreases |ds|
  {
    if |ds| == 0 then 0
    else DigitsValue(ds[..|ds| - 1], radix) * radix + HexValue(ds[|ds| - 1])
  }

  function SkipSpaces(s: string): string
  {
    s[LeadingCount(s, IsJsSpace)..]
  }

  /** What `parseInt` reads its digits from: the text after the leading white space and
      at most one sign. */
  function Unsigned(s: string): string
  {
    var t := SkipSpaces(s);
    if |t| > 0 && (t[0] == '-' || t[0] == '+') then t[1..] else t
  }

  /** A `0x` or `0X` prefix, which makes `parseInt` read base 16. */
  predicate HexPrefixed(u: string) {
    |u| >= 2 && u[0] == '0' && (u[1] == 'x' || u[1] == 'X')
  }

  /** `parseInt(s)` with no radix: leading white space is skipped, one sign is accepted,
      a `0x`/`0X` prefix selects base 16, and the longest run of digits that follows is
      read. The result is a number exactly when a digit of the chosen base comes first;
      otherwise it is `NaN`. */
  function ParseInt(s: string): (r: Num)
    ensures !HexPrefixed(Unsigned(s)) ==> (r.Int? <==> |Unsigned(s)| > 0 && IsDigit(Unsigned(s)[0]))
    ensures HexPrefixed(Unsigned(s)) ==> (r.Int? <==> |Unsigned(s)| > 2 && IsHexDigit(Unsigned(s)[2]))
  {
    var t := SkipSpaces(s);
    var negative := |t| > 0 && t[0] == '-';
    var u := Unsigned(s);
    var hex := HexPrefixed(u);
    var body := if hex then u[2..] else u;
    var n := if hex then LeadingCount(body, IsHexDigit) else LeadingCount(body, IsDigit);
    if n == 0 then NaN
    else
      var magnitude: int := DigitsValue(body[..n], if hex then 16 else 10);
      var value: int := if negative then -magnitude else magnitude;
      Int(value)
  }

  /** A decimal digit string parses to its value. */
  lemma ParseIntDigits(ds: string)
    requires |ds| > 0 && forall i :: 0 <= i < |ds| ==> IsDigit(ds[i])
    ensures ParseInt(ds) == Int(DigitsValue(ds, 10))
  {
    assert LeadingCount(ds, IsJsSpace) == 0;
    assert SkipSpaces(ds) == ds;
    assert Unsigned(ds) == ds && !HexPrefixed(ds);
    DigitRun(ds);
    assert ds[..|ds|] == ds;
  }

  /** A string of decimal digits is one leading run. */
  lemma {:induction false} DigitRun(ds: string)
    requires forall i :: 0 <= i < |ds| ==> IsDigit(ds[i])
    ensures LeadingCount(ds, IsDigit) == |ds|
    decreases |ds|
  {
    if |ds| > 0 {
      DigitRun(ds[1..]);
    }
  }

  /** The decimal representation of a natural number, as template literals print it. */
  function NatToString(n: nat): (r: string)
    ensures |r| > 0
    ensures forall i :: 0 <= i < |r| ==> IsDigit(r[i])
    ensures DigitsValue(r, 10) == n
  {
    if n < 10 then ["0123456789"[n]]
    else
      var prefix := NatToString(n / 10);
      var r := prefix + ["0123456789"[n % 10]];
      assert r[..|r| - 1] == prefix;
      r
  }

  // ---------------------------------------------------------------- slicing

  /** How `slice` reads one index argument against a length: `NaN` counts as 0, a
      negative index counts from the end, and everything is clamped to `[0, len]`. */
  function RelativeIndex(n: Num, len: nat): (r: nat)
    ensures r <= len
  {
    match n
    case NaN => 0
    case Int(v) => if v < 0 then (if len + v < 0 then 0 else len + v) else if v > len then len else v
  }

  /** `s.slice(start, end)`. */
  function Slice<T>(s: seq<T>, start: Num, end: Num): (r: seq<T>)
    ensures |r| <= |s|
  {
    var from := RelativeIndex(start, |s|);
    var to := RelativeIndex(end, |s|);
    if from < to then s[from..to] else []
  }

  /** For the non-negative indices a caller normally passes, `slice` is the clamped
      contiguous sub-sequence. */
  lemma SliceNonNegative<T>(s: seq<T>, start: nat, end: nat)
    ensures var from := if start < |s| then start else |s|;
            var to := if end < |s| then end else |s|;
            Slice(s, Int(start), Int(end)) == if from < to then s[from..to] else []
  {
  }

  // ---------------------------------------------------------------- URI encoding

  /** The characters `encodeURIComponent` leaves as they are. */
  predicate IsUnreserved(c: char) {
    'A' <= c <= 'Z' || 'a' <= c <= 'z' || IsDigit(c)
    || c == '-' || c == '_' || c == '.' || c == '!' || c == '~' || c == '*' || c == '\''
    || c == '(' || c == ')'
  }

  const HexDigits: string := "0123456789ABCDEF"

  /** `%XX` for one byte. */
  function PercentByte(b: nat): (r: string)
    requires b < 256
    ensures |r| == 3 && r[0] == '%'
  {
    ['%', HexDigits[b / 16], HexDigits[b % 16]]
  }

  /** The UTF-8 bytes of one Unicode scalar value. */
  function Utf8(c: char): (bytes: seq<nat>)
    ensures 1 <= |bytes| <= 4
    ensures forall i :: 0 <= i < |bytes| ==> bytes[i] < 256
  {
    var v := c as int;
    if v < 0x80 then [v]
    else if v < 0x800 then [0xC0 + v / 0x40, 0x80 + v % 0x40]
    else if v < 0x10000 then [0xE0 + v / 0x1000, 0x80 + (v / 0x40) % 0x40, 0x80 + v % 0x40]
    else [0xF0 + v / 0x40000, 0x80 + (v / 0x1000) % 0x40, 0x80 + (v / 0x40) % 0x40, 0x80 + v % 0x40]
  }

  function PercentBytes(bytes: seq<nat>): (r: string)
    requires forall i :: 0 <= i < |bytes| ==> bytes[i] < 256
    ensures |r| == 3 * |bytes|
    ensures forall i :: 0 <= i < |r| ==> r[i] == '%' || r[i] in HexDigits
  {
    if |bytes| == 0 then ""
    else PercentByte(bytes[0]) + PercentBytes(bytes[1..])
  }

  /** `encodeURIComponent(s)`: unreserved characters are kept, every other character is
      replaced by the percent-encoding of its UTF-8 bytes. Dafny strings hold Unicode
      scalar values only, so the lone-surrogate `URIError` cannot arise. */
  function EncodeUriComponent(s: string): (r: string)
    ensures |r| >= |s|
    ensures forall i :: 0 <= i < |r| ==> IsUnreserved(r[i]) || r[i] == '%'
    ensures s == "" <==> r == ""
  {
    if |s| == 0 then ""
    else
      var head := if IsUnreserved(s[0]) then [s[0]] else PercentBytes(Utf8(s[0]));
      assert forall i :: 0 <= i < |head| ==> IsUnreserved(head[i]) || head[i] == '%';
      head + EncodeUriComponent(s[1..])
  }
}

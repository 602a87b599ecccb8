/**
 * The parts of Python's `str` and `int` formatting that the core relies on:
 * `strip`, `startswith`/`endswith`, `split`/`rsplit` on one character, `lstrip` of one
 * character, `lower`, `str(int)`, the `,` thousands format and `strftime`'s zero padding.
 */
module PyText {
  import opened Wrappers

  /** Python's `str.isspace` for one character. */
  predicate IsSpace(c: char) {
    || ('\t' <= c <= '\r')
    || ('\U{001C}' <= c <= '\U{001F}')
    || c == ' ' || c == '\U{0085}' || c == '\U{00A0}' || c == '\U{1680}'
    || ('\U{2000}' <= c <= '\U{200A}')
    || c == '\U{2028}' || c == '\U{2029}' || c == '\U{202F}' || c == '\U{205F}' || c == '\U{3000}'
  }

  predicate AllSpace(s: string) {
    forall i :: 0 <= i < |s| ==> IsSpace(s[i])
  }

  /** `s.lstrip()`: the longest suffix of `s` that does not start with white space. */
  function TrimStart(s: string): (r: string)
    ensures |r| <= |s| && r == s[|s| - |r|..]
    ensures AllSpace(s[..|s| - |r|])
    ensures r == [] || !IsSpace(r[0])
  {
    s[LeadingSpaces(s)..]
  }

  /** The number of white-space characters `s` starts with. */
  function LeadingSpaces(s: string): (k: nat)
    ensures k <= |s| && AllSpace(s[..k]) && (k == |s| || !IsSpace(s[k]))
  {
    if s != [] && IsSpace(s[0]) then
      var k := LeadingSpaces(s[1..]);
      assert s[..k + 1] == [s[0]] + s[1..][..k];
      assert k + 1 < |s| ==> s[k + 1] == s[1..][k];
      k + 1
    else 0
  }

  /** `s.rstrip()`: the longest prefix of `s` that does not end with white space. */
  function TrimEnd(s: string): (r: string)
    ensures |r| <= |s| && r == s[..|r|]
    ensures AllSpace(s[|r|..])
    ensures r == [] || !IsSpace(r[|r| - 1])
  {
    s[..|s| - TrailingSpaces(s)]
  }

  /** The number of white-space characters `s` ends with. */
  function TrailingSpaces(s: string): (k: nat)
    ensures k <= |s| && AllSpace(s[|s| - k..]) && (k == |s| || !IsSpace(s[|s| - k - 1]))
  {
    if s != [] && IsSpace(s[|s| - 1]) then
      var init := s[..|s| - 1];
      var k := TrailingSpaces(init);
      assert s[|s| - (k + 1)..] == init[|init| - k..] + [s[|s| - 1]];
      assert k + 1 < |s| ==> s[|s| - (k + 1) - 1] == init[|init| - k - 1];
      k + 1
    else 0
  }

  /** `s.strip()`. */
  function Strip(s: string): (r: string)
    ensures |r| <= |s|
    ensures r == [] || (!IsSpace(r[0]) && !IsSpace(r[|r| - 1]))
  {
    TrimEnd(TrimStart(s))
  }

  /** A text with no white space at either end is its own `strip()`. */
  lemma StripKeeps(s: string)
    requires s == [] || (!IsSpace(s[0]) && !IsSpace(s[|s| - 1]))
    ensures Strip(s) == s
  {
  }

  lemma StripIdempotent(s: string)
    ensures Strip(Strip(s)) == Strip(s)
  {
    StripKeeps(Strip(s));
  }

  /** `value or default` on an optional string: a missing or empty value falls back to the default. */
  function OrDefault(value: Option<string>, default: string): (r: string)
    ensures value.Some? && value.value != "" ==> r == value.value
    ensures value.None? || value.value == "" ==> r == default
  {
    if value.Some? && value.value != "" then value.value else default
  }

  predicate StartsWith(s: string, prefix: string) {
    |prefix| <= |s| && s[..|prefix|] == prefix
  }

  predicate EndsWith(s: string, suffix: string) {
    |suffix| <= |s| && s[|s| - |suffix|..] == suffix
  }

  /** `s.find(c)` for one character, `None` for -1. */
  function IndexOf(s: string, c: char): (r: Option<nat>)
    ensures r.None? <==> c !in s
    ensures r.Some? ==> r.value < |s| && s[r.value] == c && c !in s[..r.value]
  {
    if s == [] then None
    else if s[0] == c then Some(0)
    else match IndexOf(s[1..], c)
      case None => None
      case Some(k) => assert s[..k + 1] == [s[0]] + s[1..][..k]; Some(k + 1)
  }

  /** `s.rfind(c)` for one character, `None` for -1. */
  function LastIndexOf(s: string, c: char): (r: Option<nat>)
    ensures r.None? <==> c !in s
    ensures r.Some? ==> r.value < |s| && s[r.value] == c && c !in s[r.value + 1..]
  {
    if s == [] then None
    else if s[|s| - 1] == c then Some(|s| - 1)
    else match LastIndexOf(s[..|s| - 1], c)
      case None => assert s == s[..|s| - 1] + [s[|s| - 1]]; None
      case Some(k) => assert s[k + 1..] == s[..|s| - 1][k + 1..] + [s[|s| - 1]]; Some(k)
  }

  /** The last `c` of `s` is at `i` when `s[i]` is `c` and none follows it. */
  lemma LastIndexOfAt(s: string, c: char, i: nat)
    requires i < |s| && s[i] == c && c !in s[i + 1..]
    ensures LastIndexOf(s, c) == Some(i)
  {
    var k := LastIndexOf(s, c).value;
    assert forall j :: i < j < |s| ==> s[i + 1..][j - i - 1] == s[j];
    assert forall j :: k < j < |s| ==> s[k + 1..][j - k - 1] == s[j];
  }

  /** `s.split(sep, 1)` for a one-character separator: one part, or the text before and after the first `sep`. */
  function SplitFirst(s: string, sep: char): (r: seq<string>)
    ensures 1 <= |r| <= 2
    ensures |r| == 1 <==> sep !in s
    ensures |r| == 1 ==> r[0] == s
    ensures |r| == 2 ==> s == r[0] + [sep] + r[1] && sep !in r[0]
  {
    match IndexOf(s, sep)
    case None => [s]
    case Some(i) => assert s == s[..i] + [sep] + s[i + 1..]; [s[..i], s[i + 1..]]
  }

  /** `s.rsplit(sep, maxsplit)` for a one-character separator: splits at the last `maxsplit` separators. */
  function RSplit(s: string, sep: char, maxsplit: nat): (r: seq<string>)
    ensures 1 <= |r| <= maxsplit + 1
    decreases maxsplit
  {
    if maxsplit == 0 then [s]
    else match LastIndexOf(s, sep)
      case None => [s]
      case Some(i) => RSplit(s[..i], sep, maxsplit - 1) + [s[i + 1..]]
  }

  /** `sep.join(parts)`. */
  function Join(parts: seq<string>, sep: string): string {
    if parts == [] then ""
    else if |parts| == 1 then parts[0]
    else Join(parts[..|parts| - 1], sep) + sep + parts[|parts| - 1]
  }

  /** `rsplit` loses nothing: joining its parts with the separator gives back the text, and
      every part but the first is free of the separator. */
  lemma RSplitJoin(s: string, sep: char, maxsplit: nat)
    ensures Join(RSplit(s, sep, maxsplit), [sep]) == s
    ensures forall k :: 1 <= k < |RSplit(s, sep, maxsplit)| ==> sep !in RSplit(s, sep, maxsplit)[k]
  {
    RSplitJoinBack(s, sep, maxsplit);
    RSplitPartsFree(s, sep, maxsplit);
  }

  lemma {:induction false} RSplitJoinBack(s: string, sep: char, maxsplit: nat)
    ensures Join(RSplit(s, sep, maxsplit), [sep]) == s
    decreases maxsplit
  {
    if maxsplit > 0 {
      match LastIndexOf(s, sep)
      case None =>
      case Some(i) =>
        var front := RSplit(s[..i], sep, maxsplit - 1);
        var head := Join(front, [sep]);
        assert head == s[..i] by { RSplitJoinBack(s[..i], sep, maxsplit - 1); }
        calc {
          Join(RSplit(s, sep, maxsplit), [sep]);
          Join(front + [s[i + 1..]], [sep]);
          { JoinSnoc(front, s[i + 1..], [sep]); }
          head + [sep] + s[i + 1..];
          s[..i] + [sep] + s[i + 1..];
          { CutAround(s, i); }
          s;
        }
    }
  }

  /** A text is what precedes position `i`, the character there, and what follows. */
  lemma CutAround(s: string, i: nat)
    requires i < |s|
    ensures s == s[..i] + [s[i]] + s[i + 1..]
  {
  }

  /** Joining one more part appends the separator and that part. */
  lemma JoinSnoc(parts: seq<string>, x: string, sep: string)
    requires parts != []
    ensures Join(parts + [x], sep) == Join(parts, sep) + sep + x
  {
    var all := parts + [x];
    assert all[..|all| - 1] == parts && all[|all| - 1] == x;
  }

  lemma {:induction false} RSplitPartsFree(s: string, sep: char, maxsplit: nat)
    ensures forall k :: 1 <= k < |RSplit(s, sep, maxsplit)| ==> sep !in RSplit(s, sep, maxsplit)[k]
    decreases maxsplit
  {
    if maxsplit > 0 {
      match LastIndexOf(s, sep)
      case None =>
      case Some(i) =>
        RSplitPartsFree(s[..i], sep, maxsplit - 1);
        var front := RSplit(s[..i], sep, maxsplit - 1);
        var parts := front + [s[i + 1..]];
        assert forall k :: 0 <= k < |front| ==> parts[k] == front[k];
    }
  }

  /** A text cut at a last separator splits into the splits of what precedes it, then what follows it. */
  lemma RSplitAtLast(a: string, sep: char, b: string, maxsplit: nat)
    requires sep !in b && maxsplit > 0
    ensures RSplit(a + [sep] + b, sep, maxsplit) == RSplit(a, sep, maxsplit - 1) + [b]
  {
    var s := a + [sep] + b;
    assert s[|a| + 1..] == b;
    LastIndexOfAt(s, sep, |a|);
    assert s[..|a|] == a;
  }

  /** `s.lstrip(c)`: drops every leading `c`. */
  function LStripChar(s: string, c: char): (r: string)
    ensures |r| <= |s| && r == s[|s| - |r|..]
    ensures forall i :: 0 <= i < |s| - |r| ==> s[i] == c
    ensures r == [] || r[0] != c
  {
    if s != [] && s[0] == c then LStripChar(s[1..], c) else s
  }

  function LowerChar(c: char): char {
    if 'A' <= c <= 'Z' then (c as int + 32) as char else c
  }

  function UpperChar(c: char): char {
    if 'a' <= c <= 'z' then (c as int - 32) as char else c
  }

  /** `s.lower()` on the ASCII letters. */
  function Lower(s: string): (r: string)
    ensures |r| == |s|
    ensures forall i :: 0 <= i < |s| ==> r[i] == LowerChar(s[i])
  {
    seq(|s|, i requires 0 <= i < |s| => LowerChar(s[i]))
  }

  /** `s.upper()` on the ASCII letters. */
  function Upper(s: string): (r: string)
    ensures |r| == |s|
    ensures forall i :: 0 <= i < |s| ==> r[i] == UpperChar(s[i])
  {
    seq(|s|, i requires 0 <= i < |s| => UpperChar(s[i]))
  }

  /** Lower-casing undoes upper-casing for a text with no capital letters (ASCII folding only touches letters). */
  lemma LowerUpper(s: string)
    requires forall i :: 0 <= i < |s| ==> !('A' <= s[i] <= 'Z')
    ensures Lower(Upper(s)) == s
  {
  }

  // ---------------------------------------------------------------- integers as text

  predicate IsDigit(c: char) {
    '0' <= c <= '9'
  }

  predicate AllDigits(s: string) {
    forall i :: 0 <= i < |s| ==> IsDigit(s[i])
  }

  function DigitChar(d: nat): (c: char)
    requires d < 10
    ensures IsDigit(c) && c as int - '0' as int == d
  {
    ('0' as int + d) as char
  }

  /** The decimal digits of `n`, without leading zeros (`str(n)` for `n >= 0`). */
  function DecimalDigits(n: nat): (r: string)
    ensures |r| >= 1 && AllDigits(r)
    decreases n
  {
    if n < 10 then [DigitChar(n)] else DecimalDigits(n / 10) + [DigitChar(n % 10)]
  }

  /** The value of a string of decimal digits (`int(s)` for such a string). */
  function ParseDecimal(s: string): nat
    requires AllDigits(s)
  {
    if s == [] then 0 else ParseDecimal(s[..|s| - 1]) * 10 + (s[|s| - 1] as int - '0' as int)
  }

  lemma {:induction false} ParseDecimalDigits(n: nat)
    ensures ParseDecimal(DecimalDigits(n)) == n
    decreases n
  {
    if n >= 10 {
      ParseDecimalDigits(n / 10);
      var d := DecimalDigits(n);
      assert d[..|d| - 1] == DecimalDigits(n / 10);
    }
  }

  /** Python's `str(i)`. */
  function IntToString(i: int): (r: string)
    ensures |r| >= 1
  {
    if i < 0 then "-" + DecimalDigits(-i) else DecimalDigits(i)
  }

  /** The three digits of `k < 1000`, zero-padded (a thousands group). */
  function ThreeDigits(k: nat): (r: string)
    requires k < 1000
    ensures |r| == 3 && AllDigits(r)
  {
    [DigitChar(k / 100), DigitChar(k / 10 % 10), DigitChar(k % 10)]
  }

  /** The digits of `n` with a `,` before every group of three, counted from the right. */
  function Grouped(n: nat): (r: string)
    ensures |r| >= 1 && IsDigit(r[0])
    decreases n
  {
    if n < 1000 then DecimalDigits(n) else Grouped(n / 1000) + "," + ThreeDigits(n % 1000)
  }

  /** Python's `f"{i:,}"` for an integer. */
  function FormatThousands(i: int): string {
    if i < 0 then "-" + Grouped(-i) else Grouped(i)
  }

  function RemoveCommas(s: string): (r: string)
    ensures |r| <= |s|
  {
    if s == [] then []
    else RemoveCommas(s[..|s| - 1]) + (if s[|s| - 1] == ',' then [] else [s[|s| - 1]])
  }

  /** Reads back a text written by `FormatThousands`. */
  function ParseThousands(s: string): Option<int> {
    var negative := s != [] && s[0] == '-';
    var digits := RemoveCommas(if negative then s[1..] else s);
    if digits != [] && AllDigits(digits) then
      Some(if negative then 0 - ParseDecimal(digits) else ParseDecimal(digits))
    else None
  }

  lemma {:induction false} RemoveCommasAppend(a: string, b: string)
    ensures RemoveCommas(a + b) == RemoveCommas(a) + RemoveCommas(b)
    decreases |b|
  {
    if b == [] {
      assert a + b == a;
    } else {
      RemoveCommasAppend(a, b[..|b| - 1]);
      assert (a + b)[..|a + b| - 1] == a + b[..|b| - 1];
    }
  }

  lemma {:induction false} RemoveCommasDigits(s: string)
    requires AllDigits(s)
    ensures RemoveCommas(s) == s
    decreases |s|
  {
    if s != [] {
      RemoveCommasDigits(s[..|s| - 1]);
    }
  }

  /** Above 999 the digits of `n` are the digits of `n / 1000` followed by a zero-padded group. */
  lemma DigitsByThousands(n: nat)
    requires n >= 1000
    ensures DecimalDigits(n) == DecimalDigits(n / 1000) + ThreeDigits(n % 1000)
  {
    LowDigits(n);
    var high := DecimalDigits(n / 1000);
    assert DecimalDigits(n / 100) == high + [DigitChar(n / 100 % 10)];
    assert DecimalDigits(n / 10) == DecimalDigits(n / 100) + [DigitChar(n / 10 % 10)];
    assert DecimalDigits(n) == DecimalDigits(n / 10) + [DigitChar(n % 10)];
  }

  /** The three lowest decimal digits of `n` are those of `n % 1000`. */
  lemma LowDigits(n: nat)
    ensures n / 10 / 10 == n / 100 && n / 100 / 10 == n / 1000
    ensures n % 1000 / 100 == n / 100 % 10 && n % 1000 / 10 % 10 == n / 10 % 10 && n % 1000 % 10 == n % 10
  {
  }

  lemma {:induction false} GroupedDigits(n: nat)
    ensures RemoveCommas(Grouped(n)) == DecimalDigits(n)
    decreases n
  {
    if n < 1000 {
      RemoveCommasDigits(DecimalDigits(n));
    } else {
      GroupedDigits(n / 1000);
      GroupedStep(n);
    }
  }

  /** Removing the commas of one more group appends that group's digits. */
  lemma GroupedStep(n: nat)
    requires n >= 1000 && RemoveCommas(Grouped(n / 1000)) == DecimalDigits(n / 1000)
    ensures RemoveCommas(Grouped(n)) == DecimalDigits(n)
  {
    var high, group := Grouped(n / 1000), ThreeDigits(n % 1000);
    assert RemoveCommas(",") == [] by {
      assert ","[..0] == [];
    }
    calc {
      RemoveCommas(Grouped(n));
      RemoveCommas(high + "," + group);
      { RemoveCommasAppend(high + ",", group); }
      RemoveCommas(high + ",") + RemoveCommas(group);
      { RemoveCommasAppend(high, ","); RemoveCommasDigits(group); }
      RemoveCommas(high) + [] + group;
      { assert RemoveCommas(high) + [] == RemoveCommas(high); }
      DecimalDigits(n / 1000) + group;
      { DigitsByThousands(n); }
      DecimalDigits(n);
    }
  }

  /** The thousands-grouped text of any integer reads back as that integer. */
  lemma FormatThousandsRoundTrip(i: int)
    ensures ParseThousands(FormatThousands(i)) == Some(i)
  {
    var m: nat := if i < 0 then -i else i;
    GroupedDigits(m);
    ParseDecimalDigits(m);
    var g := Grouped(m);
    if i < 0 {
      assert FormatThousands(i)[1..] == g;
    }
  }

  // ---------------------------------------------------------------- ordering

  /** Python's `a <= b` on `str`: code point by code point, a proper prefix first. */
  predicate StrLe(a: string, b: string)
    decreases |a|
  {
    if a == [] then true
    else if b == [] then false
    else if a[0] != b[0] then a[0] < b[0]
    else StrLe(a[1..], b[1..])
  }

  lemma {:induction false} StrLeTotal(a: string, b: string)
    ensures StrLe(a, b) || StrLe(b, a)
    decreases |a|
  {
    if a != [] && b != [] && a[0] == b[0] {
      StrLeTotal(a[1..], b[1..]);
    }
  }

  lemma {:induction false} StrLeTransitive(a: string, b: string, c: string)
    requires StrLe(a, b) && StrLe(b, c)
    ensures StrLe(a, c)
    decreases |a|
  {
    if a != [] && a[0] == b[0] && b[0] == c[0] {
      StrLeTransitive(a[1..], b[1..], c[1..]);
    }
  }

  lemma {:induction false} StrLeAntisymmetric(a: string, b: string)
    requires StrLe(a, b) && StrLe(b, a)
    ensures a == b
    decreases |a|
  {
    if a != [] {
      StrLeAntisymmetric(a[1..], b[1..]);
      assert a == [a[0]] + a[1..] && b == [b[0]] + b[1..];
    }
  }

  // ---------------------------------------------------------------- fixed-width fields

  function Pow10(w: nat): (r: nat)
    ensures r >= 1
  {
    if w == 0 then 1 else 10 * Pow10(w - 1)
  }

  /** The last `width` decimal digits of `n`, zero-padded (`%02d`, `%04d`, ...). */
  function ZeroPad(n: nat, width: nat): (r: string)
    ensures |r| == width && AllDigits(r)
  {
    if width == 0 then [] else ZeroPad(n / 10, width - 1) + [DigitChar(n % 10)]
  }

  /** A zero-padded field reads back as its number when the number fits the width. */
  lemma {:induction false} ZeroPadRoundTrip(n: nat, width: nat)
    requires n < Pow10(width)
    ensures ParseDecimal(ZeroPad(n, width)) == n
  {
    if width > 0 {
      ZeroPadRoundTrip(n / 10, width - 1);
      var p := ZeroPad(n, width);
      assert p[..|p| - 1] == ZeroPad(n / 10, width - 1);
    }
  }
  /** A field of digits is the zero-padded text of its own value. */
  lemma {:induction false} ParseZeroPad(s: string)
    requires AllDigits(s)
    ensures ZeroPad(ParseDecimal(s), |s|) == s
    decreases |s|
  {
    if s != [] {
      var init := s[..|s| - 1];
      ParseZeroPad(init);
      var n, high := ParseDecimal(s), ParseDecimal(init);
      var d := s[|s| - 1] as int - '0' as int;
      assert n == high * 10 + d;
      LastDigit(high, d);
      calc {
        ZeroPad(n, |s|);
        ZeroPad(n / 10, |s| - 1) + [DigitChar(n % 10)];
        ZeroPad(high, |init|) + [DigitChar(d)];
        init + [s[|s| - 1]];
        s;
      }
    }
  }

  /** Appending a digit `d` to `high` is undone by `/ 10` and `% 10`. */
  lemma LastDigit(high: nat, d: int)
    requires 0 <= d < 10
    ensures (high * 10 + d) / 10 == high && (high * 10 + d) % 10 == d
  {
  }
}

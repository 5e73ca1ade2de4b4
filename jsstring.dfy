/**
 * The JavaScript string built-ins that the résumé core calls: `split`, `trim`,
 * `toLowerCase`, `includes`, `startsWith`, `parseInt`, `Number.prototype.toString`,
 * `padStart`, the two regular-expression replaces of the effect display name, and
 * the default comparison of `Array.prototype.sort`.
 *
 * Strings are sequences of Unicode scalar values; `Utf16` gives the code units
 * JavaScript sees, and the sort order is proved to be theirs. Case mapping is ASCII only: the
 * core compares the lowered text with "present" only, and no non-ASCII code point
 * lowers to one of its letters.
 */
module JsString {
  import opened Wrappers

  // ---------------------------------------------------------------- trim

  /** WhiteSpace and LineTerminator code points, which `trim` and `parseInt` skip. */
  predicate IsWhitespace(c: char) {
    || c == '\t' || c == '\n' || c == '\U{000B}' || c == '\U{000C}' || c == '\r' || c == ' '
    || c == '\U{00A0}' || c == '\U{1680}' || ('\U{2000}' <= c <= '\U{200A}')
    || c == '\U{2028}' || c == '\U{2029}' || c == '\U{202F}' || c == '\U{205F}'
    || c == '\U{3000}' || c == '\U{FEFF}'
  }

  /** `s` with its leading whitespace removed. */
  function TrimStart(s: string): (r: string)
    ensures |r| <= |s| && r == s[|s| - |r|..]
    ensures forall i :: 0 <= i < |s| - |r| ==> IsWhitespace(s[i])
    ensures r == [] || !IsWhitespace(r[0])
  {
    if s != [] && IsWhitespace(s[0]) then TrimStart(s[1..]) else s
  }

  /** `s` with its trailing whitespace removed. */
  function TrimEnd(s: string): (r: string)
    ensures |r| <= |s| && r == s[..|r|]
    ensures forall i :: |r| <= i < |s| ==> IsWhitespace(s[i])
    ensures r == [] || !IsWhitespace(r[|r| - 1])
  {
    if s != [] && IsWhitespace(s[|s| - 1]) then TrimEnd(s[..|s| - 1]) else s
  }

  /** The number of whitespace characters `s` starts with. */
  function LeadingWhitespace(s: string): nat {
    |s| - |TrimStart(s)|
  }

  /** `String.prototype.trim`: `s` without its leading and trailing whitespace. */
  function Trim(s: string): (r: string)
    ensures |r| <= |s|
    ensures r == [] || (!IsWhitespace(r[0]) && !IsWhitespace(r[|r| - 1]))
  {
    TrimEnd(TrimStart(s))
  }

  /**
   * The trimmed text is the infix of `s` that starts after the leading
   * whitespace, and everything of `s` outside it is whitespace.
   */
  lemma TrimInfix(s: string)
    ensures var i := LeadingWhitespace(s); var r := Trim(s);
      && i + |r| <= |s| && r == s[i..i + |r|]
      && (forall k :: 0 <= k < i ==> IsWhitespace(s[k]))
      && (forall k :: i + |r| <= k < |s| ==> IsWhitespace(s[k]))
  {
    var t := TrimStart(s);
    var r := TrimEnd(t);
    var i := |s| - |t|;
    assert Trim(s) == r && LeadingWhitespace(s) == i;
    assert t == s[i..] && r == t[..|r|];
    assert s[i..][..|r|] == s[i..i + |r|];
    WhitespaceTail(s, i, |r|);
  }

  /** Whitespace at the end of a suffix of `s` is whitespace at the end of `s`. */
  lemma WhitespaceTail(s: string, i: int, n: int)
    requires 0 <= i <= |s| && 0 <= n <= |s| - i
    requires forall k :: n <= k < |s[i..]| ==> IsWhitespace(s[i..][k])
    ensures forall k :: i + n <= k < |s| ==> IsWhitespace(s[k])
  {
    forall k | i + n <= k < |s| ensures IsWhitespace(s[k]) {
      assert s[k] == s[i..][k - i];
    }
  }

  /** Trimming a string that has no whitespace at either end leaves it unchanged. */
  lemma TrimNoop(s: string)
    requires s == [] || (!IsWhitespace(s[0]) && !IsWhitespace(s[|s| - 1]))
    ensures Trim(s) == s
  {
  }

  /** `trim` is idempotent. */
  lemma TrimIdempotent(s: string)
    ensures Trim(Trim(s)) == Trim(s)
  {
    TrimNoop(Trim(s));
  }

  // ---------------------------------------------------------------- split

  /** `t` occurs in `s` starting at index `i`. */
  predicate OccursAt(s: string, t: string, i: nat) {
    i + |t| <= |s| && s[i..i + |t|] == t
  }

  /** Whether `t` occurs in `s` (`String.prototype.includes`). */
  predicate Contains(s: string, t: string) {
    exists i: nat | i <= |s| :: OccursAt(s, t, i)
  }

  /** `String.prototype.startsWith`. */
  predicate StartsWith(s: string, p: string) {
    |p| <= |s| && s[..|p|] == p
  }

  /**
   * `String.prototype.split` with a non-empty string separator: the text between
   * the occurrences of `sep` found scanning from the left.
   */
  function Split(s: string, sep: string): (r: seq<string>)
    requires |sep| > 0
    ensures |r| >= 1
    decreases |s|
  {
    if |s| < |sep| then [s]
    else if s[..|sep|] == sep then [""] + Split(s[|sep|..], sep)
    else
      var rest := Split(s[1..], sep);
      [[s[0]] + rest[0]] + rest[1..]
  }

  /** `Array.prototype.join`: the pieces with `sep` between neighbours. */
  function Join(pieces: seq<string>, sep: string): string {
    if pieces == [] then ""
    else if |pieces| == 1 then pieces[0]
    else pieces[0] + sep + Join(pieces[1..], sep)
  }

  /** Joining a piece in front of at least one more. */
  lemma JoinCons(p: string, rest: seq<string>, sep: string)
    requires |rest| >= 1
    ensures Join([p] + rest, sep) == p + sep + Join(rest, sep)
  {
    assert ([p] + rest)[1..] == rest;
  }

  /** Prefixing a character to the first piece prefixes it to the joined string. */
  lemma JoinPrefixFirst(c: char, rest: seq<string>, sep: string)
    requires |rest| >= 1
    ensures Join([[c] + rest[0]] + rest[1..], sep) == [c] + Join(rest, sep)
  {
    if |rest| > 1 {
      JoinCons([c] + rest[0], rest[1..], sep);
      JoinCons(rest[0], rest[1..], sep);
      assert rest == [rest[0]] + rest[1..];
    }
  }

  /** Joining the pieces of a split with the same separator gives back the string. */
  lemma {:induction false} SplitJoin(s: string, sep: string)
    requires |sep| > 0
    ensures Join(Split(s, sep), sep) == s
    decreases |s|
  {
    if |s| < |sep| {
    } else if s[..|sep|] == sep {
      var rest := Split(s[|sep|..], sep);
      assert Split(s, sep) == [""] + rest;
      SplitJoin(s[|sep|..], sep);
      JoinCons("", rest, sep);
      assert s == sep + s[|sep|..];
    } else {
      var rest := Split(s[1..], sep);
      assert Split(s, sep) == [[s[0]] + rest[0]] + rest[1..];
      SplitJoin(s[1..], sep);
      JoinPrefixFirst(s[0], rest, sep);
      assert s == [s[0]] + s[1..];
    }
  }

  /** A string in which the separator does not occur splits into itself alone. */
  lemma {:induction false} SplitWithoutSeparator(s: string, sep: string)
    requires |sep| > 0 && !Contains(s, sep)
    ensures Split(s, sep) == [s]
    decreases |s|
  {
    if |s| >= |sep| {
      assert !OccursAt(s, sep, 0);
      assert !Contains(s[1..], sep) by {
        forall i: nat ensures !OccursAt(s[1..], sep, i) {
          assert !OccursAt(s, sep, i + 1);
          if i + |sep| <= |s| - 1 {
            assert s[1..][i..i + |sep|] == s[i + 1..i + 1 + |sep|];
          }
        }
      }
      SplitWithoutSeparator(s[1..], sep);
      assert [s[0]] + s[1..] == s;
    }
  }

  /** A string without the separator's first character does not contain it. */
  lemma MissingFirstChar(s: string, sep: string)
    requires |sep| > 0 && sep[0] !in s
    ensures !Contains(s, sep)
  {
    forall i: nat | i <= |s| && i + |sep| <= |s| ensures s[i..i + |sep|][0] == s[i] {
    }
  }

  /**
   * Two pieces free of the separator's first character, joined by the
   * separator, split back into exactly those two pieces.
   */
  lemma {:induction false} SplitAround(a: string, sep: string, b: string)
    requires |sep| > 0 && sep[0] !in a && sep[0] !in b
    ensures Split(a + sep + b, sep) == [a, b]
    decreases |a|
  {
    var s := a + sep + b;
    if a == [] {
      assert s[..|sep|] == sep && s[|sep|..] == b;
      MissingFirstChar(b, sep);
      SplitWithoutSeparator(b, sep);
    } else {
      assert s[0] == a[0] != sep[0];
      assert s[..|sep|] != sep by { assert s[..|sep|][0] == s[0]; }
      assert sep[0] !in a[1..] by {
        forall i | 0 <= i < |a[1..]| ensures a[1..][i] != sep[0] { assert a[1..][i] == a[i + 1]; }
      }
      assert s[1..] == a[1..] + sep + b;
      SplitAround(a[1..], sep, b);
      assert [a[0]] + a[1..] == a;
    }
  }

  /** Splitting where the first occurrence of the separator follows a piece free of its first character. */
  lemma {:induction false} SplitAtFirst(a: string, sep: string, rest: string)
    requires |sep| > 0 && sep[0] !in a
    ensures Split(a + sep + rest, sep) == [a] + Split(rest, sep)
    decreases |a|
  {
    var s := a + sep + rest;
    if a == [] {
      assert s[..|sep|] == sep && s[|sep|..] == rest;
    } else {
      assert s[..|sep|] != sep by { assert s[..|sep|][0] == a[0]; }
      assert s[1..] == a[1..] + sep + rest;
      assert sep[0] !in a[1..] by {
        forall i | 0 <= i < |a[1..]| ensures a[1..][i] != sep[0] { assert a[1..][i] == a[i + 1]; }
      }
      SplitAtFirst(a[1..], sep, rest);
      assert [a[0]] + a[1..] == a;
    }
  }

  // ---------------------------------------------------------------- case

  /** ASCII `toLowerCase` of one character. */
  function LowerChar(c: char): (r: char)
    ensures 'A' <= c <= 'Z' ==> r as int == c as int + 32
    ensures !('A' <= c <= 'Z') ==> r == c
  {
    if 'A' <= c <= 'Z' then (c as int + 32) as char else c
  }

  /** ASCII `toUpperCase` of one character. */
  function UpperChar(c: char): (r: char)
    ensures 'a' <= c <= 'z' ==> r as int == c as int - 32
    ensures !('a' <= c <= 'z') ==> r == c
  {
    if 'a' <= c <= 'z' then (c as int - 32) as char else c
  }

  /** `String.prototype.toLowerCase`, restricted to ASCII letters. */
  function Lower(s: string): (r: string)
    ensures |r| == |s| && forall i :: 0 <= i < |s| ==> r[i] == LowerChar(s[i])
  {
    seq(|s|, i requires 0 <= i < |s| => LowerChar(s[i]))
  }

  // ---------------------------------------------------------------- numbers

  /** The value of `c` as a digit of `radix` (2 to 36), if it is one. */
  function DigitValue(c: char, radix: nat): (r: Option<nat>)
    ensures r.Some? ==> r.value < radix
    ensures radix == 10 ==> (r.Some? <==> '0' <= c <= '9')
  {
    var v := if '0' <= c <= '9' then c as int - '0' as int
             else if 'a' <= c <= 'z' then c as int - 'a' as int + 10
             else if 'A' <= c <= 'Z' then c as int - 'A' as int + 10
             else 36;
    if v < radix then Some(v) else None
  }

  /** The longest prefix of `s` made of digits of `radix`. */
  function DigitPrefix(s: string, radix: nat): (r: string)
    ensures |r| <= |s| && r == s[..|r|]
    ensures forall i :: 0 <= i < |r| ==> DigitValue(r[i], radix).Some?
    ensures |r| < |s| ==> DigitValue(s[|r|], radix).None?
  {
    if s != [] && DigitValue(s[0], radix).Some? then [s[0]] + DigitPrefix(s[1..], radix) else []
  }

  /**
   * The number a digit string denotes, most significant digit first; it is
   * only applied to runs of digits of `radix`.
   */
  function DigitsValue(ds: string, radix: nat): nat {
    if ds == [] then 0
    else DigitsValue(ds[..|ds| - 1], radix) * radix + DigitValue(ds[|ds| - 1], radix).GetOr(0)
  }

  /** The value of the longest digit prefix of `u`, or `None` when `u` does not start with a digit. */
  function LeadingNumber(u: string, radix: nat): Option<nat> {
    var ds := DigitPrefix(u, radix);
    if ds == [] then None else Some(DigitsValue(ds, radix))
  }

  /** `u` starts with `0x` or `0X`, which switches `parseInt` to radix 16. */
  predicate HasHexPrefix(u: string) {
    |u| >= 2 && u[0] == '0' && (u[1] == 'x' || u[1] == 'X')
  }

  /** The unsigned part of `parseInt`: a hexadecimal or a decimal digit run. */
  function ParseUnsigned(u: string): Option<nat> {
    if HasHexPrefix(u) then LeadingNumber(u[2..], 16) else LeadingNumber(u, 10)
  }

  /**
   * `parseInt(s)` with no radix: skip leading whitespace, read an optional sign and
   * an optional `0x` prefix (radix 16, else 10), then the longest run of digits.
   * `None` stands for NaN, the result when no digit follows.
   */
  function ParseInt(s: string): Option<int> {
    var t := TrimStart(s);
    var signed := t != [] && (t[0] == '-' || t[0] == '+');
    var magnitude := ParseUnsigned(if signed then t[1..] else t);
    match magnitude
    case None => None
    case Some(v) => Some(if signed && t[0] == '-' then -(v as int) else v as int)
  }

  /** The decimal digit character for `d`. */
  function DigitChar(d: nat): (c: char)
    requires d < 10
    ensures '0' <= c <= '9' && c as int - '0' as int == d
  {
    ('0' as int + d) as char
  }

  /** `Number.prototype.toString()` of a non-negative integer: decimal, no leading zero. */
  function NatToString(n: nat): (r: string)
    ensures |r| >= 1
    ensures forall i :: 0 <= i < |r| ==> '0' <= r[i] <= '9'
    ensures |r| > 1 ==> r[0] != '0'
  {
    if n < 10 then [DigitChar(n)] else NatToString(n / 10) + [DigitChar(n % 10)]
  }

  /** `Number.prototype.toString()` of an integer. */
  function IntToString(n: int): (r: string)
    ensures |r| >= 1
  {
    if n < 0 then "-" + NatToString(-n) else NatToString(n)
  }

  /** A decimal digit string denotes the number it was printed from. */
  lemma {:induction false} DigitsValueOfNatToString(n: nat)
    ensures DigitsValue(NatToString(n), 10) == n
  {
    if n >= 10 {
      var s := NatToString(n);
      assert s[..|s| - 1] == NatToString(n / 10);
      DigitsValueOfNatToString(n / 10);
    }
  }

  /** A string made only of digits is its own longest digit prefix. */
  lemma {:induction false} DigitPrefixOfDigits(s: string, radix: nat)
    requires forall i :: 0 <= i < |s| ==> DigitValue(s[i], radix).Some?
    ensures DigitPrefix(s, radix) == s
  {
    if s != [] {
      DigitPrefixOfDigits(s[1..], radix);
      assert s == [s[0]] + s[1..];
    }
  }

  /** `parseInt` of a non-empty decimal digit string is the number it denotes. */
  lemma ParseIntOfDigits(s: string)
    requires s != [] && forall i :: 0 <= i < |s| ==> '0' <= s[i] <= '9'
    ensures ParseInt(s) == Some(DigitsValue(s, 10))
  {
    assert !IsWhitespace(s[0]);
    assert TrimStart(s) == s;
    assert !HasHexPrefix(s);
    DigitPrefixOfDigits(s, 10);
    assert LeadingNumber(s, 10) == Some(DigitsValue(s, 10));
  }

  /** `parseInt` reads back what `toString` printed. */
  lemma ParseIntOfNatToString(n: nat)
    ensures ParseInt(NatToString(n)) == Some(n)
  {
    ParseIntOfDigits(NatToString(n));
    DigitsValueOfNatToString(n);
  }

  /** `String.prototype.padStart(len, c)` with a one-character filler. */
  function PadStart(s: string, len: nat, c: char): (r: string)
    ensures |r| == if |s| >= len then |s| else len
    ensures r[|r| - |s|..] == s
    ensures forall i :: 0 <= i < |r| - |s| ==> r[i] == c
  {
    if |s| >= len then s else seq(len - |s|, _ => c) + s
  }

  // ---------------------------------------------------------------- regular-expression replaces

  /** `s.replace(/a/g, b)` for single characters. */
  function ReplaceChar(s: string, a: char, b: char): (r: string)
    ensures |r| == |s|
    ensures forall i :: 0 <= i < |s| ==> r[i] == if s[i] == a then b else s[i]
  {
    seq(|s|, i requires 0 <= i < |s| => if s[i] == a then b else s[i])
  }

  /** The `\w` class of a regular expression without the `u` flag. */
  predicate IsWordChar(c: char) {
    ('a' <= c <= 'z') || ('A' <= c <= 'Z') || ('0' <= c <= '9') || c == '_'
  }

  /** `s.replace(/\b\w/g, l => l.toUpperCase())`: upper-case every word character that starts a word. */
  function CapitalizeWords(s: string): (r: string)
    ensures |r| == |s|
    ensures forall i :: 0 <= i < |s| ==>
      r[i] == if IsWordChar(s[i]) && (i == 0 || !IsWordChar(s[i - 1])) then UpperChar(s[i]) else s[i]
  {
    seq(|s|, i requires 0 <= i < |s| =>
      if IsWordChar(s[i]) && (i == 0 || !IsWordChar(s[i - 1])) then UpperChar(s[i]) else s[i])
  }

  // ---------------------------------------------------------------- sorting

  /** The UTF-16 code units of one character: itself below U+10000, else a surrogate pair. */
  function Utf16Units(c: char): (r: seq<int>)
    ensures 1 <= |r| <= 2
  {
    if c as int < 0x1_0000 then [c as int]
    else [0xD800 + (c as int - 0x1_0000) / 0x400, 0xDC00 + (c as int - 0x1_0000) % 0x400]
  }

  /** The UTF-16 code units of a string, the units JavaScript strings are made of. */
  function Utf16(s: string): seq<int> {
    if s == [] then [] else Utf16Units(s[0]) + Utf16(s[1..])
  }

  /** `a` comes no later than `b`, comparing code unit by code unit. */
  predicate UnitsLe(a: seq<int>, b: seq<int>) {
    a == [] || (b != [] && (a[0] < b[0] || (a[0] == b[0] && UnitsLe(a[1..], b[1..]))))
  }

  /**
   * The rank of a character in code-unit order: below U+D800 and above U+FFFF
   * the characters keep their relative order, and the characters U+E000 to
   * U+FFFF come after all those above U+FFFF, whose leading surrogates are smaller.
   */
  function UnitRank(c: char): int {
    if c as int < 0xD800 then c as int
    else if c as int >= 0x1_0000 then c as int - 0x1_0000 + 0xD800
    else c as int + 0x20_0000
  }

  /** `a` comes no later than `b` in the default order of `Array.prototype.sort`, one character at a time by rank. */
  predicate StringLe(a: string, b: string) {
    a == [] || (b != [] && (UnitRank(a[0]) < UnitRank(b[0]) || (a[0] == b[0] && StringLe(a[1..], b[1..]))))
  }

  /** Different characters have different ranks. */
  lemma UnitRankInjective(c: char, d: char)
    requires UnitRank(c) == UnitRank(d)
    ensures c == d
  {
    assert c as int == d as int;
  }

  /** A common prefix of code units does not decide the order. */
  lemma {:induction false} UnitsLeCommonPrefix(p: seq<int>, x: seq<int>, y: seq<int>)
    ensures UnitsLe(p + x, p + y) <==> UnitsLe(x, y)
  {
    if p == [] {
      assert p + x == x && p + y == y;
    } else {
      assert (p + x)[0] == p[0] == (p + y)[0];
      assert (p + x)[1..] == p[1..] + x && (p + y)[1..] == p[1..] + y;
      UnitsLeCommonPrefix(p[1..], x, y);
    }
  }

  /** Two different characters are ordered by their first differing code unit, which is the order of their ranks. */
  lemma UnitsOfDifferentChars(c: char, d: char, x: seq<int>, y: seq<int>)
    requires c != d
    ensures UnitsLe(Utf16Units(c) + x, Utf16Units(d) + y) <==> UnitRank(c) < UnitRank(d)
  {
    var u, v := Utf16Units(c) + x, Utf16Units(d) + y;
    assert u[0] == Utf16Units(c)[0] && v[0] == Utf16Units(d)[0];
    if c as int >= 0x1_0000 && d as int >= 0x1_0000 && u[0] == v[0] {
      assert u[1..] == [Utf16Units(c)[1]] + x && v[1..] == [Utf16Units(d)[1]] + y;
      assert (c as int - 0x1_0000) / 0x400 == (d as int - 0x1_0000) / 0x400;
    }
  }

  /** The rank order is exactly the order of the UTF-16 code units. */
  lemma {:induction false} StringLeIsCodeUnitOrder(a: string, b: string)
    ensures StringLe(a, b) <==> UnitsLe(Utf16(a), Utf16(b))
  {
    if a != [] && b != [] {
      if a[0] == b[0] {
        UnitsLeCommonPrefix(Utf16Units(a[0]), Utf16(a[1..]), Utf16(b[1..]));
        StringLeIsCodeUnitOrder(a[1..], b[1..]);
      } else {
        UnitsOfDifferentChars(a[0], b[0], Utf16(a[1..]), Utf16(b[1..]));
      }
    }
  }

  lemma {:induction false} StringLeTotal(a: string, b: string)
    ensures StringLe(a, b) || StringLe(b, a)
  {
    if a != [] && b != [] {
      if a[0] == b[0] {
        StringLeTotal(a[1..], b[1..]);
      } else if UnitRank(a[0]) == UnitRank(b[0]) {
        UnitRankInjective(a[0], b[0]);
      }
    }
  }

  lemma {:induction false} StringLeTransitive(a: string, b: string, c: string)
    requires StringLe(a, b) && StringLe(b, c)
    ensures StringLe(a, c)
  {
    if a != [] && a[0] == b[0] && b[0] == c[0] {
      StringLeTransitive(a[1..], b[1..], c[1..]);
    }
  }

  lemma {:induction false} StringLeAntisymmetric(a: string, b: string)
    requires StringLe(a, b) && StringLe(b, a)
    ensures a == b
  {
    if a != [] {
      if UnitRank(a[0]) == UnitRank(b[0]) { UnitRankInjective(a[0], b[0]); }
      StringLeAntisymmetric(a[1..], b[1..]);
      assert a == [a[0]] + a[1..] && b == [b[0]] + b[1..];
    }
  }

  /** Every element comes no later than every element after it. */
  ghost predicate SortedStrings(s: seq<string>) {
    forall i, j :: 0 <= i < j < |s| ==> StringLe(s[i], s[j])
  }

  /** `x` inserted before the first element it does not come after. */
  function InsertString(x: string, s: seq<string>): (r: seq<string>)
    ensures multiset(r) == multiset(s) + multiset{x}
  {
    if s == [] then [x]
    else if StringLe(x, s[0]) then [x] + s
    else
      assert s == [s[0]] + s[1..];
      [s[0]] + InsertString(x, s[1..])
  }

  /** A sorted sequence stays sorted behind an element that comes no later than all of it. */
  lemma SortedCons(a: string, t: seq<string>)
    requires SortedStrings(t)
    requires forall y :: y in t ==> StringLe(a, y)
    ensures SortedStrings([a] + t)
  {
    var r := [a] + t;
    forall i, j | 0 <= i < j < |r| ensures StringLe(r[i], r[j]) {
      if i == 0 { assert r[j] == t[j - 1] && t[j - 1] in t; } else { assert r[i] == t[i - 1] && r[j] == t[j - 1]; }
    }
  }

  lemma {:induction false} InsertStringSorted(x: string, s: seq<string>)
    requires SortedStrings(s)
    ensures SortedStrings(InsertString(x, s))
  {
    if s == [] {
    } else if StringLe(x, s[0]) {
      forall y | y in s ensures StringLe(x, y) {
        var k :| 0 <= k < |s| && s[k] == y;
        if k > 0 { StringLeTransitive(x, s[0], y); }
      }
      SortedCons(x, s);
    } else {
      StringLeTotal(x, s[0]);
      var t := InsertString(x, s[1..]);
      assert SortedStrings(s[1..]) by {
        forall i, j | 0 <= i < j < |s[1..]| ensures StringLe(s[1..][i], s[1..][j]) {
          assert s[1..][i] == s[i + 1] && s[1..][j] == s[j + 1];
        }
      }
      InsertStringSorted(x, s[1..]);
      forall y | y in t ensures StringLe(s[0], y) {
        assert y in multiset(t);
        if y != x {
          assert y in multiset(s[1..]);
          var k :| 0 <= k < |s[1..]| && s[1..][k] == y;
          assert s[k + 1] == y;
        }
      }
      SortedCons(s[0], t);
    }
  }

  /** The result of `Array.prototype.sort()` on strings: the sorted permutation. */
  function SortStrings(s: seq<string>): (r: seq<string>)
    ensures multiset(r) == multiset(s)
  {
    if s == [] then []
    else
      assert s == [s[0]] + s[1..];
      InsertString(s[0], SortStrings(s[1..]))
  }

  lemma {:induction false} SortStringsSorted(s: seq<string>)
    ensures SortedStrings(SortStrings(s))
  {
    if s != [] {
      SortStringsSorted(s[1..]);
      InsertStringSorted(s[0], SortStrings(s[1..]));
    }
  }
}

/**
 * The java.lang behaviour the app relies on, spelled out: String.startsWith,
 * contains, toLowerCase(Locale.US), equalsIgnoreCase, replace, split on one
 * character, lastIndexOf, compareTo and hashCode, Integer.toString and
 * Long.parseLong(s, 16).
 */
module JavaLang {
  import opened Wrappers

  // ---------------------------------------------------------------- prefixes, case

  /** `s.startsWith(prefix)` */
  predicate StartsWith(s: string, prefix: string)
  {
    |prefix| <= |s| && s[..|prefix|] == prefix
  }

  /** `s.contains(sub)`: `sub` occurs at some offset of `s`. */
  predicate Contains(s: string, sub: string)
    decreases |s|
  {
    StartsWith(s, sub) || (|s| > 0 && Contains(s[1..], sub))
  }

  /** `Character.toLowerCase` on ASCII letters; other characters are kept. */
  function LowerChar(c: char): char
  {
    if 'A' <= c <= 'Z' then (c as int + 32) as char else c
  }

  /** `s.toLowerCase(Locale.US)`, character by character. */
  function ToLowerUS(s: string): (r: string)
    ensures |r| == |s|
    ensures forall i :: 0 <= i < |s| ==> r[i] == LowerChar(s[i])
  {
    seq(|s|, i requires 0 <= i < |s| => LowerChar(s[i]))
  }

  /** `a.equalsIgnoreCase(b)`: same length, equal after folding the case of each character. */
  predicate EqualsIgnoreCase(a: string, b: string)
  {
    ToLowerUS(a) == ToLowerUS(b)
  }

  // ---------------------------------------------------------------- replace

  /** `s.replace("" + c, "")`: every occurrence of `c` removed, the rest kept in order. */
  function RemoveChar(s: string, c: char): (r: string)
    ensures c !in r
    ensures c !in s ==> r == s
    decreases |s|
  {
    if |s| == 0 then ""
    else (if s[0] == c then "" else [s[0]]) + RemoveChar(s[1..], c)
  }

  lemma {:induction false} RemoveCharConcat(a: string, b: string, c: char)
    ensures RemoveChar(a + b, c) == RemoveChar(a, c) + RemoveChar(b, c)
    decreases |a|
  {
    if |a| > 0 {
      var h := if a[0] == c then "" else [a[0]];
      assert (a + b)[0] == a[0] && (a + b)[1..] == a[1..] + b;
      assert RemoveChar(a + b, c) == h + RemoveChar(a[1..] + b, c);
      RemoveCharConcat(a[1..], b, c);
      assert RemoveChar(a, c) == h + RemoveChar(a[1..], c);
    } else {
      assert a + b == b;
    }
  }

  /** Wrapping a text in double quotes and then deleting every double quote gives the text back. */
  lemma UnquoteQuoted(x: string)
    requires '"' !in x
    ensures RemoveChar("\"" + x + "\"", '"') == x
  {
    RemoveCharConcat("\"" + x, "\"", '"');
    RemoveCharConcat("\"", x, '"');
  }

  // ---------------------------------------------------------------- split

  /** Index of the first occurrence of `c` in `s`. */
  function IndexOf(s: string, c: char): (r: nat)
    requires c in s
    ensures r < |s| && s[r] == c
    ensures forall k :: 0 <= k < r ==> s[k] != c
  {
    if s[0] == c then 0 else 1 + IndexOf(s[1..], c)
  }

  /** The pieces of `s` between occurrences of `c`, empty ones included: n separators give n+1 pieces. */
  function Fields(s: string, c: char): (r: seq<string>)
    ensures |r| >= 1
    decreases |s|
  {
    if c !in s then [s]
    else
      var i := IndexOf(s, c);
      [s[..i]] + Fields(s[i + 1..], c)
  }

  /** Joining pieces with the separator `c` between them. */
  function Join(parts: seq<string>, c: char): string
    requires |parts| >= 1
  {
    if |parts| == 1 then parts[0] else parts[0] + [c] + Join(parts[1..], c)
  }

  /** The pieces of `s` rejoined with the separator give `s` back. */
  lemma {:induction false} JoinFields(s: string, c: char)
    ensures Join(Fields(s, c), c) == s
    decreases |s|
  {
    if c in s {
      var i := IndexOf(s, c);
      var head, tail := s[..i], s[i + 1..];
      assert s == head + [c] + tail;
      var f := [head] + Fields(tail, c);
      assert Fields(s, c) == f;
      assert f[1..] == Fields(tail, c);
      JoinFields(tail, c);
      assert Join(f, c) == head + [c] + Join(Fields(tail, c), c);
    }
  }

  /** Pieces without the separator, joined with it, split back into the same pieces. */
  lemma {:induction false} FieldsOfJoin(parts: seq<string>, c: char)
    requires |parts| >= 1
    requires forall k :: 0 <= k < |parts| ==> c !in parts[k]
    ensures Fields(Join(parts, c), c) == parts
    decreases |parts|
  {
    if |parts| > 1 {
      var rest := parts[1..];
      assert parts == [parts[0]] + rest;
      assert forall k :: 0 <= k < |rest| ==> c !in rest[k] by {
        forall k | 0 <= k < |rest| ensures c !in rest[k] {
          assert rest[k] == parts[k + 1];
        }
      }
      FieldsOfJoin(rest, c);
      assert Join(parts, c) == parts[0] + [c] + Join(rest, c);
      FieldsOfConcat(parts[0], Join(rest, c), c);
    }
  }

  /** No piece contains the separator. */
  lemma {:induction false} FieldsExcludeSeparator(s: string, c: char)
    ensures forall k :: 0 <= k < |Fields(s, c)| ==> c !in Fields(s, c)[k]
    decreases |s|
  {
    if c in s {
      var i := IndexOf(s, c);
      FieldsExcludeSeparator(s[i + 1..], c);
      assert c !in s[..i] by {
        forall k | 0 <= k < i ensures s[..i][k] != c { }
      }
    }
  }

  /** A character absent from the string is absent from every piece. */
  lemma {:induction false} FieldsAvoid(s: string, c: char, d: char)
    requires d !in s
    ensures forall k :: 0 <= k < |Fields(s, c)| ==> d !in Fields(s, c)[k]
    decreases |s|
  {
    if c in s {
      var i := IndexOf(s, c);
      assert s == s[..i] + [c] + s[i + 1..];
      FieldsAvoid(s[i + 1..], c, d);
    }
  }

  /** A prefix without the separator is the first piece. */
  lemma FieldsOfConcat(p: string, q: string, c: char)
    requires c !in p
    ensures Fields(p + [c] + q, c) == [p] + Fields(q, c)
  {
    var s := p + [c] + q;
    assert s[|p|] == c;
    var i := IndexOf(s, c);
    assert i <= |p|;
    assert s[..i] == p;
    assert s[i + 1..] == q;
  }

  /** Text added after the first occurrence does not move it. */
  lemma IndexOfExtended(p: string, t: string, c: char)
    requires c in p
    ensures c in p + t && IndexOf(p + t, c) == IndexOf(p, c)
  {
    var i := IndexOf(p, c);
    assert (p + t)[i] == c;
    assert forall k :: 0 <= k < i ==> (p + t)[k] == p[k];
  }

  /** Appending a separator and a last piece without separators adds that piece at the end. */
  lemma {:induction false} FieldsOfAppend(p: string, q: string, c: char)
    requires c !in q
    ensures Fields(p + [c] + q, c) == Fields(p, c) + [q]
    decreases |p|
  {
    var s := p + [c] + q;
    if c !in p {
      FieldsOfConcat(p, q, c);
    } else {
      var i := IndexOf(p, c);
      assert s == p + ([c] + q);
      IndexOfExtended(p, [c] + q, c);
      assert s[..i] == p[..i];
      assert s[i + 1..] == p[i + 1..] + [c] + q;
      FieldsOfAppend(p[i + 1..], q, c);
    }
  }

  /** The pieces with trailing empty strings removed (what `split` with limit 0 does). */
  function DropTrailingEmpty(p: seq<string>): (r: seq<string>)
    ensures |r| <= |p| && r == p[..|r|]
    ensures |r| > 0 ==> r[|r| - 1] != ""
    ensures forall k :: |r| <= k < |p| ==> p[k] == ""
  {
    if |p| > 0 && p[|p| - 1] == "" then DropTrailingEmpty(p[..|p| - 1]) else p
  }

  /**
   * `s.split(c)` for a separator that is not a regex metacharacter: the whole string
   * when `c` does not occur, otherwise the pieces with trailing empty pieces removed.
   */
  function Split(s: string, c: char): (r: seq<string>)
    ensures forall k :: 0 <= k < |r| ==> c !in r[k]
    ensures c !in s ==> r == [s]
  {
    FieldsExcludeSeparator(s, c);
    if c !in s then [s] else DropTrailingEmpty(Fields(s, c))
  }

  /** A character absent from the string is absent from every piece `split` returns. */
  lemma SplitAvoids(s: string, c: char, d: char)
    requires d !in s
    ensures forall k :: 0 <= k < |Split(s, c)| ==> d !in Split(s, c)[k]
  {
    if c in s {
      FieldsAvoid(s, c, d);
    }
  }

  /** One separator between two pieces without it: `split` gives the two pieces (the last one non-empty). */
  lemma SplitOfTwo(p: string, q: string, c: char)
    requires c !in p && c !in q && q != ""
    ensures Split(p + [c] + q, c) == [p, q]
  {
    FieldsOfAppend(p, q, c);
    assert Fields(p, c) == [p];
    assert (p + [c] + q)[|p|] == c;
  }

  /** A separator at the very end is dropped with the empty piece after it: at most one piece is left. */
  lemma SplitOfTrailingSeparator(p: string, c: char)
    requires c !in p
    ensures |Split(p + [c], c)| <= 1
  {
    FieldsOfAppend(p, [], c);
    assert p + [c] + [] == p + [c];
    assert Fields(p, c) == [p];
    assert (p + [c])[|p|] == c;
  }

  /** A piece without the separator, then the end or a separator: that piece comes first. */
  lemma FieldsFirstPiece(q: string, rest: string, c: char)
    requires c !in q
    requires rest == [] || rest[0] == c
    ensures Fields(q + rest, c)[0] == q
  {
    if rest == [] {
      assert q + rest == q;
    } else {
      assert q + rest == q + [c] + rest[1..];
      FieldsOfConcat(q, rest[1..], c);
    }
  }

  /** After a first piece without the separator, the second piece runs to the next separator. */
  lemma SplitSecondPiece(p: string, q: string, rest: string, c: char)
    requires c !in p && c !in q && q != ""
    requires rest == [] || rest[0] == c
    ensures |Split(p + [c] + q + rest, c)| >= 2 && Split(p + [c] + q + rest, c)[1] == q
  {
    var s := p + [c] + q + rest;
    assert s == p + [c] + (q + rest);
    FieldsOfConcat(p, q + rest, c);
    FieldsFirstPiece(q, rest, c);
    var f := Fields(s, c);
    assert |f| >= 2 && f[1] == q;
    assert s[|p|] == c;
    var r := DropTrailingEmpty(f);
    assert Split(s, c) == r;
    assert |r| >= 2;
  }

  // ---------------------------------------------------------------- lastIndexOf

  /** `s.lastIndexOf(c)`: the last position holding `c`, or -1. */
  function LastIndexOf(s: string, c: char): (r: int)
    ensures -1 <= r < |s|
    ensures r >= 0 ==> s[r] == c
    ensures forall k :: r < k < |s| ==> s[k] != c
  {
    if |s| == 0 then -1
    else if s[|s| - 1] == c then |s| - 1
    else LastIndexOf(s[..|s| - 1], c)
  }

  // ---------------------------------------------------------------- UTF-16

  /**
   * The UTF-16 code units of one character, as a Java `String` stores it: one unit for a
   * character of the Basic Multilingual Plane, a high and a low surrogate otherwise.
   */
  function CharUnits(c: char): (u: seq<int>)
    ensures |u| == 1 || |u| == 2
    ensures forall k :: 0 <= k < |u| ==> 0 <= u[k] < 0x10000
    ensures |u| == 1 <==> c as int < 0x10000
    ensures |u| == 1 ==> u[0] == c as int && !(0xD800 <= u[0] < 0xDC00)
    ensures |u| == 2 ==> 0xD800 <= u[0] < 0xDC00
  {
    var v := c as int;
    if v < 0x10000 then [v]
    else [0xD800 + (v - 0x10000) / 0x400, 0xDC00 + (v - 0x10000) % 0x400]
  }

  /** A character is determined by its code units. */
  lemma CharUnitsInjective(c: char, d: char)
    requires CharUnits(c) == CharUnits(d)
    ensures c == d
  {
    if c as int >= 0x10000 {
      var x, y := c as int - 0x10000, d as int - 0x10000;
      assert x / 0x400 == y / 0x400 && x % 0x400 == y % 0x400;
      assert x == 0x400 * (x / 0x400) + x % 0x400;
      assert y == 0x400 * (y / 0x400) + y % 0x400;
    }
  }

  /** The UTF-16 code units of a string, which Java's `compareTo` and `hashCode` work on. */
  function Utf16(s: string): (u: seq<int>)
    ensures |u| >= |s|
  {
    if |s| == 0 then [] else CharUnits(s[0]) + Utf16(s[1..])
  }

  /** Distinct strings have distinct code units: the first unit says how many units the first character takes. */
  lemma {:induction false} Utf16Injective(a: string, b: string)
    requires Utf16(a) == Utf16(b)
    ensures a == b
    decreases |a|
  {
    if |a| > 0 && |b| > 0 {
      var ua, ub := CharUnits(a[0]), CharUnits(b[0]);
      assert Utf16(a)[0] == ua[0] && Utf16(b)[0] == ub[0];
      assert |ua| == |ub|;
      assert Utf16(a)[..|ua|] == ua && Utf16(b)[..|ub|] == ub;
      CharUnitsInjective(a[0], b[0]);
      assert Utf16(a)[|ua|..] == Utf16(a[1..]) && Utf16(b)[|ub|..] == Utf16(b[1..]);
      Utf16Injective(a[1..], b[1..]);
      assert a == [a[0]] + a[1..] && b == [b[0]] + b[1..];
    }
  }

  // ---------------------------------------------------------------- compareTo

  /**
   * `compareTo` over code units: the difference of the first differing units, or of the
   * lengths when one sequence is a prefix of the other.
   */
  function CompareUnits(a: seq<int>, b: seq<int>): int
    decreases |a|
  {
    if |a| == 0 || |b| == 0 then |a| - |b|
    else if a[0] != b[0] then a[0] - b[0]
    else CompareUnits(a[1..], b[1..])
  }

  /** `a.compareTo(b)`: the code-unit comparison of the two strings' UTF-16 forms. */
  function CompareTo(a: string, b: string): int
  {
    CompareUnits(Utf16(a), Utf16(b))
  }

  lemma {:induction false} CompareUnitsZero(a: seq<int>, b: seq<int>)
    ensures CompareUnits(a, b) == 0 <==> a == b
    decreases |a|
  {
    if |a| > 0 && |b| > 0 && a[0] == b[0] {
      CompareUnitsZero(a[1..], b[1..]);
      assert a == [a[0]] + a[1..] && b == [b[0]] + b[1..];
    }
  }

  /** compareTo is zero exactly on equal strings. */
  lemma CompareToZero(a: string, b: string)
    ensures CompareTo(a, b) == 0 <==> a == b
  {
    CompareUnitsZero(Utf16(a), Utf16(b));
    if Utf16(a) == Utf16(b) {
      Utf16Injective(a, b);
    }
  }

  lemma {:induction false} CompareUnitsAntisymmetric(a: seq<int>, b: seq<int>)
    ensures CompareUnits(b, a) == -CompareUnits(a, b)
    decreases |a|
  {
    if |a| > 0 && |b| > 0 && a[0] == b[0] {
      CompareUnitsAntisymmetric(a[1..], b[1..]);
    }
  }

  /** Swapping the arguments negates the result. */
  lemma CompareToAntisymmetric(a: string, b: string)
    ensures CompareTo(b, a) == -CompareTo(a, b)
  {
    CompareUnitsAntisymmetric(Utf16(a), Utf16(b));
  }

  lemma {:induction false} CompareUnitsTransitive(a: seq<int>, b: seq<int>, c: seq<int>)
    requires CompareUnits(a, b) <= 0 && CompareUnits(b, c) <= 0
    ensures CompareUnits(a, c) <= 0
    decreases |a|
  {
    if |a| > 0 && |b| > 0 && |c| > 0 && a[0] == b[0] && b[0] == c[0] {
      CompareUnitsTransitive(a[1..], b[1..], c[1..]);
    }
  }

  /** The order compareTo induces is transitive. */
  lemma CompareToTransitive(a: string, b: string, c: string)
    requires CompareTo(a, b) <= 0 && CompareTo(b, c) <= 0
    ensures CompareTo(a, c) <= 0
  {
    CompareUnitsTransitive(Utf16(a), Utf16(b), Utf16(c));
  }

  /**
   * A character beyond the Basic Multilingual Plane sorts by its high surrogate, so
   * U+1F600 comes before U+FF01 although its code point is larger.
   */
  lemma SupplementarySortsBySurrogate()
    ensures CompareTo("\U{1F600}", "\U{FF01}") == 0xD83D - 0xFF01
  {
    assert Utf16("\U{1F600}") == [0xD83D, 0xDE00];
    assert Utf16("\U{FF01}") == [0xFF01];
  }

  // ---------------------------------------------------------------- hashCode

  /** Reduction to a signed 32-bit value, as Java `int` arithmetic wraps. */
  function Wrap32(x: int): (r: int)
    ensures -0x8000_0000 <= r < 0x8000_0000
    ensures (r - x) % 0x1_0000_0000 == 0
  {
    var m := x % 0x1_0000_0000;
    if m >= 0x8000_0000 then m - 0x1_0000_0000 else m
  }

  /** `h = 31 * h + unit` over the code units, in 32-bit arithmetic. */
  function HashUnits(u: seq<int>): (h: int)
    ensures -0x8000_0000 <= h < 0x8000_0000
  {
    if |u| == 0 then 0 else Wrap32(31 * HashUnits(u[..|u| - 1]) + u[|u| - 1])
  }

  /** `s.hashCode()`: the hash of the string's UTF-16 code units. */
  function HashCode(s: string): int
  {
    HashUnits(Utf16(s))
  }

  /** A supplementary character hashes as its two surrogates. */
  lemma SupplementaryHashesBySurrogates()
    ensures HashCode("\U{1F600}") == 31 * 0xD83D + 0xDE00
  {
    var u := Utf16("\U{1F600}");
    assert u == [0xD83D, 0xDE00];
    assert u[..1] == [0xD83D] && u[..1][..0] == [];
    assert Wrap32(0xD83D) == 0xD83D;
    assert HashUnits(u[..1]) == 0xD83D;
    assert Wrap32(1772899) == 1772899;
  }

  // ---------------------------------------------------------------- digits

  /** `Character.digit(c, 16)` on ASCII: the digit's value, or -1. */
  function DigitValue(c: char): int
  {
    if '0' <= c <= '9' then c as int - '0' as int
    else if 'a' <= c <= 'f' then c as int - 'a' as int + 10
    else if 'A' <= c <= 'F' then c as int - 'A' as int + 10
    else -1
  }

  /** `Character.forDigit(d, radix)`: lower-case for values above nine. */
  function DigitChar(d: nat): (c: char)
    requires d < 16
    ensures DigitValue(c) == d
  {
    if d < 10 then ('0' as int + d) as char else ('a' as int + d - 10) as char
  }

  predicate AllDigits(s: string, radix: nat)
  {
    forall i :: 0 <= i < |s| ==> 0 <= DigitValue(s[i]) < radix
  }

  /** The value of a digit string, most significant digit first. */
  function ValueOf(s: string, radix: nat): nat
    requires AllDigits(s, radix)
  {
    if |s| == 0 then 0 else ValueOf(s[..|s| - 1], radix) * radix + DigitValue(s[|s| - 1])
  }

  /** The digits of `n` in base `radix`, without leading zeros. */
  function ToDigits(n: nat, radix: nat): string
    requires 2 <= radix <= 16
    decreases n
  {
    if n < radix then [DigitChar(n)] else ToDigits(n / radix, radix) + [DigitChar(n % radix)]
  }

  /** Appending a digit multiplies the value by the radix and adds the digit. */
  lemma ValueOfAppend(p: string, ch: char, radix: nat)
    requires AllDigits(p, radix) && 0 <= DigitValue(ch) < radix
    ensures AllDigits(p + [ch], radix)
    ensures ValueOf(p + [ch], radix) == ValueOf(p, radix) * radix + DigitValue(ch)
  {
    var s := p + [ch];
    assert s[..|s| - 1] == p;
    assert forall i :: 0 <= i < |p| ==> s[i] == p[i];
  }

  /** Printing then reading a number gives it back, and the text is a non-empty digit string. */
  lemma {:induction false} ToDigitsRoundTrip(n: nat, radix: nat)
    requires 2 <= radix <= 16
    ensures |ToDigits(n, radix)| >= 1 && AllDigits(ToDigits(n, radix), radix)
    ensures ValueOf(ToDigits(n, radix), radix) == n
    decreases n
  {
    if n < radix {
      assert ToDigits(n, radix)[..0] == [];
    } else {
      var q, d := n / radix, n % radix;
      DivDecreases(n, radix);
      ToDigitsRoundTrip(q, radix);
      ValueOfAppend(ToDigits(q, radix), DigitChar(d), radix);
      DivMod(n, radix);
    }
  }

  /** Integers of a given number of digits stay below the next power of the radix. */
  function Pow(b: nat, e: nat): nat
  {
    if e == 0 then 1 else b * Pow(b, e - 1)
  }

  lemma MulMonotone(a: nat, b: nat, c: nat)
    requires a <= b
    ensures a * c <= b * c
  {
  }

  lemma DivMod(n: nat, radix: nat)
    requires radix >= 1
    ensures (n / radix) * radix + n % radix == n
  {
  }

  lemma BoundStep(v: nat, p: nat, d: nat, radix: nat)
    requires v < p && d < radix
    ensures v * radix + d < radix * p
  {
    MulMonotone(v + 1, p, radix);
  }

  lemma DivDecreases(n: nat, radix: nat)
    requires radix >= 2 && n >= 1
    ensures n / radix < n
  {
    var q := n / radix;
    assert q * radix <= n;
    MulMonotone(2, radix, q);
  }

  lemma {:induction false} ValueOfUpperBound(s: string, radix: nat)
    requires radix >= 2 && AllDigits(s, radix)
    ensures ValueOf(s, radix) < Pow(radix, |s|)
  {
    if |s| > 0 {
      var p := s[..|s| - 1];
      var v, d := ValueOf(p, radix), DigitValue(s[|s| - 1]);
      ValueOfUpperBound(p, radix);
      BoundStep(v, Pow(radix, |p|), d, radix);
      assert ValueOf(s, radix) == v * radix + d;
    }
  }

  lemma {:induction false} ValueOfLowerBound(s: string, radix: nat)
    requires radix >= 2 && AllDigits(s, radix)
    requires |s| > 0 && DigitValue(s[0]) > 0
    ensures ValueOf(s, radix) >= Pow(radix, |s| - 1)
  {
    var p := s[..|s| - 1];
    if |p| > 0 {
      assert p[0] == s[0];
      ValueOfLowerBound(p, radix);
      MulMonotone(Pow(radix, |p| - 1), ValueOf(p, radix), radix);
      assert Pow(radix, |p|) == radix * Pow(radix, |p| - 1);
    }
  }

  /** `Integer.toString(n)`: decimal digits, with a leading minus sign for negative values. */
  function IntToString(n: int): string
  {
    if n < 0 then "-" + ToDigits(-n, 10) else ToDigits(n, 10)
  }

  /** The text starts with a minus sign exactly for negative numbers. */
  lemma IntToStringSign(n: int)
    ensures |IntToString(n)| >= 1
    ensures IntToString(n)[0] == '-' <==> n < 0
  {
    var d := if n < 0 then -n else n;
    ToDigitsRoundTrip(d, 10);
    assert 0 <= DigitValue(ToDigits(d, 10)[0]);
  }

  /** Integer.toString is injective: two numbers print alike only when they are equal. */
  lemma IntToStringInjective(a: int, b: int)
    ensures IntToString(a) == IntToString(b) <==> a == b
  {
    if IntToString(a) == IntToString(b) {
      IntToStringSign(a);
      IntToStringSign(b);
      var da := if a < 0 then -a else a;
      var db := if b < 0 then -b else b;
      ToDigitsRoundTrip(da, 10);
      ToDigitsRoundTrip(db, 10);
      if a < 0 {
        assert ToDigits(da, 10) == IntToString(a)[1..] == IntToString(b)[1..] == ToDigits(db, 10);
      }
    }
  }

  // ---------------------------------------------------------------- Long.parseLong

  const LONG_MIN: int := -0x8000_0000_0000_0000
  const LONG_MAX: int := 0x7FFF_FFFF_FFFF_FFFF

  /**
   * `Long.parseLong(s, 16)`: an optional sign, then one or more hexadecimal digits
   * whose signed value fits a 64-bit long; anything else is a NumberFormatException (None).
   */
  function ParseLong16(s: string): Option<int>
  {
    if |s| == 0 then None
    else
      var digits := if s[0] == '-' || s[0] == '+' then s[1..] else s;
      if |digits| == 0 || !AllDigits(digits, 16) then None
      else
        var m: int := ValueOf(digits, 16);
        var v := if s[0] == '-' then -m else m;
        if LONG_MIN <= v <= LONG_MAX then Some(v) else None
  }

  /** Every long printed in hexadecimal is read back by parseLong. */
  lemma ParseLong16OfDigits(n: nat)
    requires n <= LONG_MAX
    ensures ParseLong16(ToDigits(n, 16)) == Some(n)
  {
    ToDigitsRoundTrip(n, 16);
    var s := ToDigits(n, 16);
    assert 0 <= DigitValue(s[0]);
  }
}

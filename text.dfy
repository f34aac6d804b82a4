/**
 * String operations the storefront relies on: `toLowerCase`, `includes`,
 * `startsWith`, `substring`, the relational operators on strings, and the
 * `parseInt` of a short run of digits.
 */
module Text {

  import opened Seqs

  /** `toLowerCase` on one character; only the ASCII letters A-Z are folded. */
  function LowerChar(c: char): char
  {
    if 'A' <= c <= 'Z' then (c as int + 32) as char else c
  }

  /** `String.prototype.toLowerCase`, restricted to ASCII case folding. */
  function ToLower(s: string): (r: string)
    ensures |r| == |s|
    ensures forall i :: 0 <= i < |s| ==> r[i] == LowerChar(s[i])
    ensures forall i :: 0 <= i < |r| ==> !('A' <= r[i] <= 'Z')
  {
    if s == [] then [] else [LowerChar(s[0])] + ToLower(s[1..])
  }

  /** Lower-casing twice is lower-casing once. */
  lemma ToLowerIdempotent(s: string)
    ensures ToLower(ToLower(s)) == ToLower(s)
  {
    var t := ToLower(s);
    assert forall i :: 0 <= i < |t| ==> LowerChar(t[i]) == t[i];
  }

  /** `s.startsWith(prefix)`. */
  predicate StartsWith(s: string, prefix: string)
  {
    |prefix| <= |s| && s[..|prefix|] == prefix
  }

  /** `s.includes(sub)`: `sub` starts at some position of `s`. */
  predicate Contains(s: string, sub: string)
  {
    StartsWith(s, sub) || (s != [] && Contains(s[1..], sub))
  }

  /** `s.substring(from, to)` for `0 <= from <= to`: both bounds are clamped to the length. */
  function Substring(s: string, from: nat, to: nat): (r: string)
    requires from <= to
    ensures |r| <= to - from
    ensures to <= |s| ==> r == s[from..to]
    ensures from >= |s| ==> r == ""
    ensures from <= |s| <= to ==> r == s[from..]
  {
    var lo := if from <= |s| then from else |s|;
    var hi := if to <= |s| then to else |s|;
    s[lo..hi]
  }

  predicate IsDigit(c: char)
  {
    '0' <= c <= '9'
  }

  /**
   * The value `parseInt` gives a character as a digit: 0-9 for decimal
   * digits, 10-35 for the letters in either case, and 36 (a digit in no
   * radix) for anything else.
   */
  function DigitValue(c: char): (v: nat)
    ensures v < 10 <==> IsDigit(c)
    ensures v <= 36
  {
    if '0' <= c <= '9' then c as int - '0' as int
    else if 'a' <= c <= 'z' then c as int - 'a' as int + 10
    else if 'A' <= c <= 'Z' then c as int - 'A' as int + 10
    else 36
  }

  /** A `0x` or `0X` prefix, which `parseInt` without a radix reads as hexadecimal. */
  predicate HexPrefix(s: string)
  {
    |s| >= 2 && s[0] == '0' && (s[1] == 'x' || s[1] == 'X')
  }

  /**
   * `parseInt(s)` without a radix, on a string made of digits and other
   * characters: after a `0x`/`0X` prefix the value of the leading
   * hexadecimal digits, otherwise the value of the leading decimal digits;
   * None (NaN) when there is no such digit.
   */
  function ParseInt(s: string): (r: Option<nat>)
    ensures r.None? <==> s == [] || !IsDigit(s[0]) || (HexPrefix(s) && (|s| == 2 || DigitValue(s[2]) >= 16))
  {
    if HexPrefix(s) then
      var n := LeadingDigitCount(s[2..], 16);
      if n == 0 then None else Some(DigitsValue(s[2..][..n], 16))
    else if s == [] || !IsDigit(s[0]) then None
    else Some(DigitsValue(s[..LeadingDigitCount(s, 10)], 10))
  }

  /** The number of leading digits of `s` in the radix: all digits, followed by a non-digit or the end. */
  function LeadingDigitCount(s: string, radix: nat): (n: nat)
    ensures n <= |s|
    ensures forall i :: 0 <= i < n ==> DigitValue(s[i]) < radix
    ensures n < |s| ==> DigitValue(s[n]) >= radix
  {
    if s == [] || DigitValue(s[0]) >= radix then 0 else 1 + LeadingDigitCount(s[1..], radix)
  }

  /** Two decimal digits read as a number: tens then units, so a leading zero is dropped. */
  lemma TwoDigits(s: string)
    requires |s| == 2 && IsDigit(s[0]) && IsDigit(s[1])
    ensures ParseInt(s) == Some(10 * (s[0] as int - '0' as int) + (s[1] as int - '0' as int))
  {
    assert !HexPrefix(s);
    assert LeadingDigitCount(s[1..], 10) == 1 by {
      assert s[1..][1..] == [];
    }
    assert s[..LeadingDigitCount(s, 10)] == s;
    assert DigitsValue([s[0]], 10) == s[0] as int - '0' as int by {
      assert [s[0]][..0] == [];
    }
    assert s[..1] == [s[0]];
    assert DigitsValue(s, 10) == DigitsValue([s[0]], 10) * 10 + (s[1] as int - '0' as int);
  }

  /**
   * `parseInt` of a string of at most two characters, case by case: NaN
   * without a leading digit and for a bare `0x`/`0X`, the two-digit number
   * when both are digits, and the first digit alone when it is followed by
   * nothing or by a non-digit that does not make a hex prefix.
   */
  lemma ParseShort(s: string)
    requires |s| <= 2
    ensures s == [] || !IsDigit(s[0]) ==> ParseInt(s) == None
    ensures HexPrefix(s) ==> ParseInt(s) == None
    ensures |s| == 2 && IsDigit(s[0]) && IsDigit(s[1]) ==>
      ParseInt(s) == Some(10 * (s[0] as int - '0' as int) + (s[1] as int - '0' as int))
    ensures s != [] && IsDigit(s[0]) && (|s| == 1 || !IsDigit(s[1])) && !HexPrefix(s) ==>
      ParseInt(s) == Some(s[0] as int - '0' as int)
  {
    if |s| == 2 && IsDigit(s[0]) && IsDigit(s[1]) {
      TwoDigits(s);
    } else if s != [] && IsDigit(s[0]) && !HexPrefix(s) {
      assert LeadingDigitCount(s, 10) == 1 by {
        if |s| == 2 { assert LeadingDigitCount(s[1..], 10) == 0; } else { assert s[1..] == []; }
      }
      assert s[..1] == [s[0]];
      assert DigitsValue([s[0]], 10) == s[0] as int - '0' as int by {
        assert [s[0]][..0] == [];
      }
    }
  }

  /** The value of a string of digits in the radix, most significant first. */
  function DigitsValue(d: string, radix: nat): nat
  {
    if d == [] then 0
    else
      var last := DigitValue(d[|d| - 1]);
      DigitsValue(d[..|d| - 1], radix) * radix + (if last < radix then last else 0)
  }

  /** A hexadecimal month-like slice: "0x1F" reads as 31, a bare "0x" as NaN, "0b" as 0. */
  lemma ParseIntExamples()
    ensures ParseInt("0x") == None
    ensures ParseInt("0x1F") == Some(31)
    ensures ParseInt("0b") == Some(0)
  {
    assert "0x1F"[2..] == "1F";
    assert LeadingDigitCount("1F", 16) == 2 by {
      assert "1F"[1..] == "F" && "F"[1..] == "";
    }
    assert "1F"[..2] == "1F" && "1F"[..1] == "1" && "1"[..0] == "";
    assert LeadingDigitCount("0b", 10) == 1 by { assert "0b"[1..] == "b"; }
    assert "0b"[..1] == "0" && "0"[..0] == "";
  }

  /**
   * `a < b` on JavaScript strings: lexicographic comparison by character
   * code, a proper prefix being smaller.
   */
  predicate LexLess(a: string, b: string)
  {
    if a == [] then b != []
    else if b == [] then false
    else if a[0] != b[0] then a[0] < b[0]
    else LexLess(a[1..], b[1..])
  }

  /** `a <= b` on JavaScript strings. */
  predicate LexLe(a: string, b: string)
  {
    a == b || LexLess(a, b)
  }

  lemma {:induction false} LexLessIrreflexive(a: string)
    ensures !LexLess(a, a)
  {
    if a != [] {
      LexLessIrreflexive(a[1..]);
    }
  }

  lemma {:induction false} LexLessAsymmetric(a: string, b: string)
    requires LexLess(a, b)
    ensures !LexLess(b, a)
  {
    if a != [] && b != [] && a[0] == b[0] {
      LexLessAsymmetric(a[1..], b[1..]);
    }
  }

  lemma {:induction false} LexLessTransitive(a: string, b: string, c: string)
    requires LexLess(a, b) && LexLess(b, c)
    ensures LexLess(a, c)
  {
    if a != [] && b != [] && c != [] && a[0] == b[0] && b[0] == c[0] {
      LexLessTransitive(a[1..], b[1..], c[1..]);
    }
  }

  /** Any two distinct strings are ordered one way or the other. */
  lemma {:induction false} LexLessTotal(a: string, b: string)
    requires a != b
    ensures LexLess(a, b) || LexLess(b, a)
  {
    if a != [] && b != [] && a[0] == b[0] {
      assert a == [a[0]] + a[1..] && b == [b[0]] + b[1..];
      LexLessTotal(a[1..], b[1..]);
    }
  }

  /** `<=` on strings is a total preorder: it is transitive ... */
  lemma LexLeTransitive(a: string, b: string, c: string)
    requires LexLe(a, b) && LexLe(b, c)
    ensures LexLe(a, c)
  {
    if a != b && b != c {
      LexLessTransitive(a, b, c);
    }
  }

  /** ... and antisymmetric, so an interval `lo <= x <= hi` with `hi < lo` is empty. */
  lemma LexLeAntisymmetric(a: string, b: string)
    requires LexLe(a, b) && LexLe(b, a)
    ensures a == b
  {
    if a != b {
      LexLessAsymmetric(a, b);
    }
  }
}

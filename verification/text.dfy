/** String helpers shared by the Go configuration loaders and the cache-key
    reasoning: Go's decimal formatting (`%d`), `strconv.Atoi`, `strings.Split`
    on a one-character separator, and substring tests. */
module Text {
  import opened Base

  /** Bounds of Go's `int` on the 64-bit targets the loaders are built for. */
  const Int64Min: int := -0x8000_0000_0000_0000
  const Int64Max: int :=  0x7fff_ffff_ffff_ffff

  predicate InInt64(i: int) {
    Int64Min <= i <= Int64Max
  }

  predicate IsDigit(c: char) {
    '0' <= c <= '9'
  }

  predicate AllDigits(s: string) {
    forall k :: 0 <= k < |s| ==> IsDigit(s[k])
  }

  function DigitChar(d: nat): (c: char)
    requires d < 10
    ensures IsDigit(c)
  {
    ('0' as int + d) as char
  }

  function DigitValue(c: char): (d: nat)
    requires IsDigit(c)
    ensures d < 10 && DigitChar(d) == c
  {
    c as int - '0' as int
  }

  /** Decimal digits of `n`, most significant first, no leading zeros. */
  function NatToString(n: nat): (s: string)
    ensures 1 <= |s| && AllDigits(s)
    ensures n > 0 ==> s[0] != '0'
    decreases n
  {
    if n < 10 then [DigitChar(n)] else NatToString(n / 10) + [DigitChar(n % 10)]
  }

  /** Go's `%d` / `strconv.Itoa`: a minus sign for negative values, then the digits. */
  function IntToString(i: int): (s: string)
    ensures 1 <= |s|
    ensures i >= 0 <==> IsDigit(s[0])
    ensures i < 0 <==> s[0] == '-'
    ensures forall k :: 1 <= k < |s| ==> IsDigit(s[k])
  {
    if i < 0 then "-" + NatToString(-i) else NatToString(i)
  }

  /** The number a non-empty run of decimal digits denotes (leading zeros allowed). */
  function DigitsValue(s: string): nat
    requires AllDigits(s)
    decreases |s|
  {
    if |s| == 0 then 0 else DigitsValue(s[..|s| - 1]) * 10 + DigitValue(s[|s| - 1])
  }

  lemma {:induction false} DigitsOfNat(n: nat)
    ensures DigitsValue(NatToString(n)) == n
    decreases n
  {
    if n >= 10 {
      var s := NatToString(n);
      assert s[..|s| - 1] == NatToString(n / 10);
      DigitsOfNat(n / 10);
    }
  }

  /** `strconv.Atoi`: an optional `+` or `-`, then one or more decimal digits and
      nothing else; values outside the 64-bit range are a range error. */
  function Atoi(s: string): (r: Option<int>)
    ensures r.Some? ==> InInt64(r.value)
    ensures |s| == 0 ==> r.None?
    ensures r.Some? ==> (AllDigits(s) || ((s[0] == '+' || s[0] == '-') && AllDigits(s[1..])))
  {
    if |s| == 0 then None
    else
      var neg := s[0] == '-';
      var body := if s[0] == '-' || s[0] == '+' then s[1..] else s;
      if |body| == 0 || !AllDigits(body) then None
      else
        var v: int := if neg then 0 - DigitsValue(body) as int else DigitsValue(body);
        if InInt64(v) then Some(v) else None
  }

  /** Parsing back what `%d` printed gives the number again. */
  lemma AtoiOfIntToString(i: int)
    requires InInt64(i)
    ensures Atoi(IntToString(i)) == Some(i)
  {
    if i < 0 {
      var digits := NatToString(-i);
      assert IntToString(i) == "-" + digits;
      DigitsOfNat(-i);
      AtoiNegative(digits);
    } else {
      DigitsOfNat(i);
      AtoiUnsigned(NatToString(i));
    }
  }

  lemma AtoiNegative(digits: string)
    requires |digits| >= 1 && AllDigits(digits) && InInt64(0 - DigitsValue(digits) as int)
    ensures Atoi("-" + digits) == Some(0 - DigitsValue(digits) as int)
  {
    assert ("-" + digits)[1..] == digits;
  }

  lemma AtoiUnsigned(digits: string)
    requires |digits| >= 1 && AllDigits(digits) && InInt64(DigitsValue(digits))
    ensures Atoi(digits) == Some(DigitsValue(digits))
  {
    assert IsDigit(digits[0]);
  }

  /** `strings.Split(s, string(sep))`: the pieces between separators, keeping
      empty pieces; splitting the empty string gives one empty piece. */
  function Split(s: string, sep: char): (parts: seq<string>)
    ensures |parts| >= 1
    ensures forall k :: 0 <= k < |parts| ==> sep !in parts[k]
    decreases |s|
  {
    if |s| == 0 then [""]
    else
      var rest := Split(s[1..], sep);
      if s[0] == sep then [""] + rest else [[s[0]] + rest[0]] + rest[1..]
  }

  /** `strings.Join(parts, string(sep))`: the first part leads, the last one
      ends the string. */
  function Join(parts: seq<string>, sep: char): (s: string)
    ensures |parts| >= 1 ==> StartsWith(s, parts[0])
    ensures |s| >= |parts| - 1
    decreases |parts|
  {
    if |parts| == 0 then ""
    else if |parts| == 1 then parts[0]
    else parts[0] + [sep] + Join(parts[1..], sep)
  }

  lemma {:induction false} JoinSplit(s: string, sep: char)
    ensures Join(Split(s, sep), sep) == s
    decreases |s|
  {
    if |s| > 0 {
      var rest := Split(s[1..], sep);
      JoinSplit(s[1..], sep);
      if s[0] == sep {
        assert Split(s, sep) == [""] + rest;
        assert Join([""] + rest, sep) == "" + [sep] + Join(rest, sep);
      } else {
        var parts := [[s[0]] + rest[0]] + rest[1..];
        if |rest| == 1 {
          assert Join(rest, sep) == rest[0];
        } else {
          assert Join(rest, sep) == rest[0] + [sep] + Join(rest[1..], sep);
          assert parts[1..] == rest[1..];
        }
      }
    }
  }

  lemma {:induction false} SplitJoin(parts: seq<string>, sep: char)
    requires |parts| >= 1
    requires forall k :: 0 <= k < |parts| ==> sep !in parts[k]
    ensures Split(Join(parts, sep), sep) == parts
    decreases |parts|, |parts[0]|
  {
    if |parts[0]| == 0 {
      if |parts| > 1 {
        SplitJoin(parts[1..], sep);
        assert Join(parts, sep) == [sep] + Join(parts[1..], sep);
        assert ([sep] + Join(parts[1..], sep))[1..] == Join(parts[1..], sep);
      }
    } else {
      var p0 := parts[0];
      var shorter := [p0[1..]] + parts[1..];
      assert forall k :: 0 <= k < |shorter| ==> sep !in shorter[k] by {
        forall k | 0 <= k < |shorter| ensures sep !in shorter[k] {
          if k == 0 {
            assert forall c :: c in p0[1..] ==> c in p0;
          } else {
            assert shorter[k] == parts[k];
          }
        }
      }
      SplitJoin(shorter, sep);
      var j := Join(parts, sep);
      if |parts| == 1 {
        assert j == p0 && Join(shorter, sep) == p0[1..];
      } else {
        assert j == p0 + [sep] + Join(parts[1..], sep);
        assert Join(shorter, sep) == p0[1..] + [sep] + Join(parts[1..], sep);
      }
      assert j[0] == p0[0] && j[0] != sep;
      assert j[1..] == Join(shorter, sep);
      assert shorter[1..] == parts[1..];
      assert [p0[0]] + p0[1..] == p0;
    }
  }

  /** A piece without the separator splits into itself. */
  lemma SplitWithoutSeparator(s: string, sep: char)
    requires sep !in s
    ensures Split(s, sep) == [s]
  {
    SplitJoin([s], sep);
  }

  /** A first piece free of the separator is split off on its own. */
  lemma {:induction false} SplitFirst(a: string, b: string, sep: char)
    requires sep !in a
    ensures Split(a + [sep] + b, sep) == [a] + Split(b, sep)
    decreases |a|
  {
    var s := a + [sep] + b;
    if |a| == 0 {
      assert s == [sep] + b && s[1..] == b;
    } else {
      assert s[1..] == a[1..] + [sep] + b;
      SplitFirst(a[1..], b, sep);
      assert [a[0]] + a[1..] == a;
    }
  }

  /** Two separator-free pieces around one separator split back into those pieces. */
  lemma SplitTwo(a: string, b: string, sep: char)
    requires sep !in a && sep !in b
    ensures Split(a + [sep] + b, sep) == [a, b]
  {
    SplitFirst(a, b, sep);
    SplitWithoutSeparator(b, sep);
  }

  /** The last piece is whatever follows the last separator. */
  lemma {:induction false} SplitLast(a: string, b: string, sep: char)
    requires sep !in b
    ensures |Split(a + [sep] + b, sep)| >= 2
    ensures Split(a + [sep] + b, sep)[|Split(a + [sep] + b, sep)| - 1] == b
    decreases |a|
  {
    var s := a + [sep] + b;
    if |a| == 0 {
      assert s == [sep] + b && s[1..] == b;
      SplitWithoutSeparator(b, sep);
    } else {
      assert s[1..] == a[1..] + [sep] + b;
      SplitLast(a[1..], b, sep);
    }
  }

  /** Appending a separator and a separator-free piece adds exactly that piece. */
  lemma {:induction false} SplitAppend(a: string, b: string, sep: char)
    requires sep !in b
    ensures Split(a + [sep] + b, sep) == Split(a, sep) + [b]
    decreases |a|
  {
    var s := a + [sep] + b;
    if |a| == 0 {
      assert s == [sep] + b && s[1..] == b;
      SplitWithoutSeparator(b, sep);
    } else {
      assert s[1..] == a[1..] + [sep] + b;
      SplitAppend(a[1..], b, sep);
      var r := Split(a[1..], sep);
      if a[0] != sep {
        assert (r + [b])[0] == r[0];
        assert (r + [b])[1..] == r[1..] + [b];
      }
    }
  }

  /** The text before the last separator; the whole string when there is none. */
  function BeforeLast(s: string, sep: char): string {
    var parts := Split(s, sep);
    Join(parts[..|parts| - 1], sep)
  }

  /** Whatever `a` holds, the text before the last separator of `a sep b` is `a`
      when `b` is free of the separator. */
  lemma BeforeLastOf(a: string, b: string, sep: char)
    requires sep !in b
    ensures BeforeLast(a + [sep] + b, sep) == a
  {
    SplitAppend(a, b, sep);
    var parts := Split(a + [sep] + b, sep);
    assert parts[..|parts| - 1] == Split(a, sep);
    JoinSplit(a, sep);
  }

  /** The length of a join does not depend on which separator is used. */
  lemma {:induction false} JoinLengthAnySeparator(parts: seq<string>, x: char, y: char)
    ensures |Join(parts, x)| == |Join(parts, y)|
    decreases |parts|
  {
    if |parts| > 1 {
      JoinLengthAnySeparator(parts[1..], x, y);
    }
  }

  predicate StartsWith(s: string, prefix: string) {
    |prefix| <= |s| && s[..|prefix|] == prefix
  }

  predicate EndsWith(s: string, suffix: string) {
    |suffix| <= |s| && s[|s| - |suffix|..] == suffix
  }

  /** `t` occurs in `s` starting at position `k`. */
  predicate OccursAt(t: string, s: string, k: int) {
    0 <= k <= |s| - |t| && s[k..k + |t|] == t
  }

  /** `t` occurs in `s` as a contiguous piece. */
  predicate IsSubstring(t: string, s: string) {
    exists k | 0 <= k <= |s| :: OccursAt(t, s, k)
  }
}

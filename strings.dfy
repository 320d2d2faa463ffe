/**
 * The string helpers of Go's standard library that the resources use:
 * strings.TrimSpace, strings.ToLower, strings.SplitN with a one-character
 * separator and at most three parts, strconv.Atoi, and fmt's %d and %t verbs.
 */
module Strings {
  import opened Wrappers

  /** The characters Go's unicode.IsSpace reports, which strings.TrimSpace strips. */
  predicate IsSpace(c: char) {
    || c == ' ' || c == '\t' || c == '\n' || c == '\r' || c == '\U{000B}' || c == '\U{000C}'
    || c == '\U{0085}' || c == '\U{00A0}' || c == '\U{1680}'
    || ('\U{2000}' <= c <= '\U{200A}')
    || c == '\U{2028}' || c == '\U{2029}' || c == '\U{202F}' || c == '\U{205F}' || c == '\U{3000}'
  }

  predicate AllSpace(s: string) {
    forall i :: 0 <= i < |s| ==> IsSpace(s[i])
  }

  /** Drops the leading white space. */
  function TrimLeft(s: string): string
    decreases |s|
  {
    if s != [] && IsSpace(s[0]) then TrimLeft(s[1..]) else s
  }

  /** TrimLeft keeps a suffix that does not start with white space, and what it drops is white space. */
  lemma {:induction false} TrimLeftDropsSpace(s: string)
    ensures var r := TrimLeft(s);
      && |r| <= |s| && r == s[|s| - |r|..]
      && (r == [] || !IsSpace(r[0]))
      && AllSpace(s[..|s| - |r|])
    decreases |s|
  {
    if s != [] && IsSpace(s[0]) {
      var t := s[1..];
      var r := TrimLeft(t);
      TrimLeftDropsSpace(t);
      assert TrimLeft(s) == r;
      assert t[|t| - |r|..] == s[|s| - |r|..];
      var dropped := s[..|s| - |r|];
      forall i | 0 <= i < |dropped| ensures IsSpace(dropped[i]) {
        if i > 0 {
          assert dropped[i] == t[..|t| - |r|][i - 1];
        }
      }
    }
  }

  /** Drops the trailing white space. */
  function TrimRight(s: string): string
    decreases |s|
  {
    if s != [] && IsSpace(s[|s| - 1]) then TrimRight(s[..|s| - 1]) else s
  }

  /** TrimRight keeps a prefix that does not end with white space, and what it drops is white space. */
  lemma {:induction false} TrimRightDropsSpace(s: string)
    ensures var r := TrimRight(s);
      && |r| <= |s| && r == s[..|r|]
      && (r == [] || !IsSpace(r[|r| - 1]))
      && AllSpace(s[|r|..])
    decreases |s|
  {
    if s != [] && IsSpace(s[|s| - 1]) {
      var r := TrimRight(s[..|s| - 1]);
      TrimRightDropsSpace(s[..|s| - 1]);
      assert s[..|s| - 1][..|r|] == s[..|r|];
      assert s[|r|..] == s[..|s| - 1][|r|..] + [s[|s| - 1]];
    }
  }

  /** Go's strings.TrimSpace. */
  function TrimSpace(s: string): string {
    TrimRight(TrimLeft(s))
  }

  /**
   * TrimSpace cuts out of s the slice s[i..j] that has only white space
   * before and after it and no white space at either of its own ends.
   */
  lemma TrimSpaceIsSlice(s: string) returns (i: nat, j: nat)
    ensures i <= j <= |s| && TrimSpace(s) == s[i..j]
    ensures AllSpace(s[..i]) && AllSpace(s[j..])
    ensures i < j ==> !IsSpace(s[i]) && !IsSpace(s[j - 1])
  {
    var l := TrimLeft(s);
    var r := TrimRight(l);
    TrimLeftDropsSpace(s);
    TrimRightDropsSpace(l);
    i := |s| - |l|;
    j := i + |r|;
    assert r == s[i..j];
    assert s[j..] == l[|r|..];
  }

  /** A string without white space at its ends is left as it is. */
  lemma TrimSpaceKeeps(s: string)
    requires s == [] || (!IsSpace(s[0]) && !IsSpace(s[|s| - 1]))
    ensures TrimSpace(s) == s
  {
  }

  /** Trimming twice trims no more than trimming once. */
  lemma TrimSpaceIdempotent(s: string)
    ensures TrimSpace(TrimSpace(s)) == TrimSpace(s)
  {
    var i, j := TrimSpaceIsSlice(s);
    TrimSpaceKeeps(s[i..j]);
  }

  /** The trimmed string is empty exactly when s is all white space. */
  lemma TrimSpaceBlank(s: string)
    ensures TrimSpace(s) == "" <==> AllSpace(s)
  {
    var i, j := TrimSpaceIsSlice(s);
    if i == j {
      assert s == s[..i] + s[j..];
    } else {
      assert !IsSpace(s[i]);
    }
  }

  /** ASCII lower-casing of one character. */
  function LowerChar(c: char): char {
    if 'A' <= c <= 'Z' then (c as int + 32) as char else c
  }

  /** strings.ToLower, restricted to the ASCII letters. */
  function ToLower(s: string): (r: string)
    ensures |r| == |s|
  {
    if s == [] then [] else [LowerChar(s[0])] + ToLower(s[1..])
  }

  /** Every character is lower-cased in place. */
  lemma {:induction false} ToLowerChars(s: string)
    ensures forall i :: 0 <= i < |s| ==> ToLower(s)[i] == LowerChar(s[i])
  {
    if s != [] {
      ToLowerChars(s[1..]);
      assert forall i :: 1 <= i < |s| ==> ToLower(s)[i] == ToLower(s[1..])[i - 1];
    }
  }

  /** fmt's %t verb. */
  function BoolToString(b: bool): string {
    if b then "true" else "false"
  }

  predicate IsDigit(c: char) {
    '0' <= c <= '9'
  }

  predicate AllDigits(s: string) {
    forall i :: 0 <= i < |s| ==> IsDigit(s[i])
  }

  function DigitChar(d: nat): (c: char)
    requires d < 10
    ensures IsDigit(c)
  {
    ('0' as int + d) as char
  }

  function DigitValue(c: char): nat
    requires IsDigit(c)
  {
    c as int - '0' as int
  }

  /** fmt's %d verb on a non-negative number: its decimal digits without leading zeros. */
  function NatToString(n: nat): (r: string)
    ensures |r| > 0 && AllDigits(r)
    decreases n
  {
    if n < 10 then [DigitChar(n)] else NatToString(n / 10) + [DigitChar(n % 10)]
  }

  /** fmt's %d verb. */
  function IntToString(i: int): string {
    if i < 0 then "-" + NatToString(-i) else NatToString(i)
  }

  /** The number a string of decimal digits denotes. */
  function DigitsValue(s: string): nat
    requires AllDigits(s)
    decreases |s|
  {
    if s == [] then 0 else DigitsValue(s[..|s| - 1]) * 10 + DigitValue(s[|s| - 1])
  }

  /** Reading back the digits %d prints gives the number printed. */
  lemma {:induction false} DigitsValueOfNat(n: nat)
    ensures DigitsValue(NatToString(n)) == n
  {
    if n >= 10 {
      var r := NatToString(n);
      assert r[..|r| - 1] == NatToString(n / 10);
      DigitsValueOfNat(n / 10);
    }
  }

  /** Distinct numbers print differently. */
  lemma IntToStringInjective(a: int, b: int)
    requires IntToString(a) == IntToString(b)
    ensures a == b
  {
    var sa, sb := IntToString(a), IntToString(b);
    assert (a < 0) == (sa[0] == '-');
    assert (b < 0) == (sb[0] == '-');
    if a < 0 {
      assert sa[1..] == NatToString(-a) && sb[1..] == NatToString(-b);
      DigitsValueOfNat(-a);
      DigitsValueOfNat(-b);
    } else {
      DigitsValueOfNat(a);
      DigitsValueOfNat(b);
    }
  }

  /** The length of the run of digits s starts with. */
  function DigitRun(s: string): (k: nat)
    ensures k <= |s|
  {
    if s == [] || !IsDigit(s[0]) then 0 else 1 + DigitRun(s[1..])
  }

  lemma {:induction false} DigitRunOf(x: string, rest: string)
    requires AllDigits(x)
    requires rest == [] || !IsDigit(rest[0])
    ensures DigitRun(x + rest) == |x|
  {
    if x != [] {
      assert (x + rest)[1..] == x[1..] + rest;
      DigitRunOf(x[1..], rest);
    }
  }

  /** Digits followed by something that does not start with a digit are read back unambiguously. */
  lemma NatThenNonDigit(a: nat, b: nat, r1: string, r2: string)
    requires r1 == [] || !IsDigit(r1[0])
    requires r2 == [] || !IsDigit(r2[0])
    requires NatToString(a) + r1 == NatToString(b) + r2
    ensures a == b && r1 == r2
  {
    var t := NatToString(a) + r1;
    DigitRunOf(NatToString(a), r1);
    DigitRunOf(NatToString(b), r2);
    assert NatToString(a) == t[..DigitRun(t)] == NatToString(b);
    DigitsValueOfNat(a);
    DigitsValueOfNat(b);
  }

  /** What a printed number followed by r starts with, and what follows its sign. */
  lemma PrintedSign(i: int, r: string)
    ensures (IntToString(i) + r)[0] == '-' <==> i < 0
    ensures i < 0 ==> (IntToString(i) + r)[1..] == NatToString(-i) + r
    ensures i >= 0 ==> IntToString(i) + r == NatToString(i) + r
  {
    if i < 0 {
      assert IntToString(i) + r == "-" + (NatToString(-i) + r);
    } else {
      assert IsDigit(NatToString(i)[0]);
    }
  }

  /** A printed integer followed by text that does not start with a digit is read back unambiguously. */
  lemma IntThenRest(a: int, b: int, r1: string, r2: string)
    requires r1 == [] || !IsDigit(r1[0])
    requires r2 == [] || !IsDigit(r2[0])
    requires IntToString(a) + r1 == IntToString(b) + r2
    ensures a == b && r1 == r2
  {
    PrintedSign(a, r1);
    PrintedSign(b, r2);
    if a < 0 {
      NatThenNonDigit(-a, -b, r1, r2);
    } else {
      NatThenNonDigit(a, b, r1, r2);
    }
  }

  /**
   * A printed integer followed by a separator that is not a digit is read
   * back unambiguously: the number and what follows the separator are
   * both determined.
   */
  lemma IntThenSeparator(a: int, b: int, c: char, r1: string, r2: string)
    requires !IsDigit(c)
    requires IntToString(a) + [c] + r1 == IntToString(b) + [c] + r2
    ensures a == b && r1 == r2
  {
    var t1, t2 := [c] + r1, [c] + r2;
    StringAssoc(IntToString(a), [c], r1);
    StringAssoc(IntToString(b), [c], r2);
    IntThenRest(a, b, t1, t2);
    assert r1 == t1[1..] && r2 == t2[1..];
  }

  lemma StringAssoc(x: string, y: string, z: string)
    ensures x + y + z == x + (y + z)
  {
  }

  /** A printed integer holds only digits and a leading `-`. */
  lemma IntToStringAvoids(i: int, c: char)
    requires !IsDigit(c) && c != '-'
    ensures c !in IntToString(i)
  {
    var d := NatToString(if i < 0 then -i else i);
    assert AllDigits(d);
    assert c !in d;
  }


  const MinInt64: int := -0x8000_0000_0000_0000
  const MaxInt64: int := 0x7fff_ffff_ffff_ffff

  /**
   * Go's strconv.Atoi where int is 64 bits wide: an optional `+` or `-`,
   * then one or more decimal digits and nothing else, denoting a value
   * that fits in 64 bits.
   */
  function Atoi(s: string): (r: Option<int>)
    ensures r.Some? ==> MinInt64 <= r.value <= MaxInt64
    ensures r.Some? ==> |s| > 0 && (IsDigit(s[0]) || s[0] == '-' || s[0] == '+')
    ensures r.Some? ==> AllDigits(s[1..]) && (IsDigit(s[0]) || |s| > 1)
  {
    var signed := |s| > 0 && (s[0] == '-' || s[0] == '+');
    var digits := if signed then s[1..] else s;
    if digits == [] || !AllDigits(digits) then None
    else
      var magnitude: int := DigitsValue(digits);
      var value := if s[0] == '-' then -magnitude else magnitude;
      if MinInt64 <= value <= MaxInt64 then Some(value) else None
  }

  /** Atoi undoes %d on every 64-bit integer. */
  lemma AtoiOfIntToString(i: int)
    requires MinInt64 <= i <= MaxInt64
    ensures Atoi(IntToString(i)) == Some(i)
  {
    var s := IntToString(i);
    if i < 0 {
      assert s[1..] == NatToString(-i);
      DigitsValueOfNat(-i);
    } else {
      DigitsValueOfNat(i);
    }
  }

  /** The position of the first c in s, if any. */
  function IndexOf(s: string, c: char): (r: Option<nat>)
    ensures r.Some? ==> r.value < |s| && s[r.value] == c && c !in s[..r.value]
    ensures r.None? ==> c !in s
  {
    if s == [] then None
    else if s[0] == c then Some(0)
    else
      match IndexOf(s[1..], c)
      case None =>
        assert s == [s[0]] + s[1..];
        None
      case Some(k) =>
        assert s[..k + 1] == [s[0]] + s[1..][..k];
        Some(k + 1)
  }

  lemma {:induction false} IndexOfAfter(a: string, rest: string, c: char)
    requires c !in a
    requires |rest| > 0 && rest[0] == c
    ensures IndexOf(a + rest, c) == Some(|a|)
  {
    if a != [] {
      assert (a + rest)[0] == a[0];
      assert (a + rest)[1..] == a[1..] + rest;
      IndexOfAfter(a[1..], rest, c);
    }
  }

  /** s is what comes before position i, the character at i, and what comes after. */
  lemma Around(s: string, i: nat)
    requires i < |s|
    ensures s == s[..i] + [s[i]] + s[i + 1..]
  {
    assert s == s[..i] + s[i..];
    assert s[i..] == [s[i]] + s[i + 1..];
  }

  lemma Regroup3(s: string, a: string, rest: string, b: string, c: string, sep: char)
    requires s == a + [sep] + rest && rest == b + [sep] + c
    ensures s == a + [sep] + b + [sep] + c
  {
  }

  /** Go's strings.SplitN(s, string(sep), 3): at most three parts, the last one unsplit. */
  function SplitN3(s: string, sep: char): (parts: seq<string>)
    ensures 1 <= |parts| <= 3
    ensures |parts| == 1 ==> parts[0] == s && sep !in s
    ensures |parts| == 2 ==> s == parts[0] + [sep] + parts[1] && sep !in parts[0] && sep !in parts[1]
    ensures |parts| == 3 ==> s == parts[0] + [sep] + parts[1] + [sep] + parts[2]
    ensures |parts| == 3 ==> sep !in parts[0] && sep !in parts[1]
  {
    match IndexOf(s, sep)
    case None => [s]
    case Some(i) =>
      var rest := s[i + 1..];
      Around(s, i);
      match IndexOf(rest, sep)
      case None => [s[..i], rest]
      case Some(j) =>
        Around(rest, j);
        Regroup3(s, s[..i], rest, rest[..j], rest[j + 1..], sep);
        [s[..i], rest[..j], rest[j + 1..]]
  }

  /**
   * Joining three fields with sep and splitting into at most three parts
   * gives the fields back when the first two do not contain sep; the
   * third may.
   */
  lemma SplitN3OfJoin(a: string, b: string, c: string, sep: char)
    requires sep !in a && sep !in b
    ensures SplitN3(a + [sep] + b + [sep] + c, sep) == [a, b, c]
  {
    var s := a + [sep] + b + [sep] + c;
    assert s == a + ([sep] + b + [sep] + c);
    IndexOfAfter(a, [sep] + b + [sep] + c, sep);
    var rest := s[|a| + 1..];
    assert rest == b + ([sep] + c);
    IndexOfAfter(b, [sep] + c, sep);
    assert rest[..|b|] == b;
    assert rest[|b| + 1..] == c;
  }

  /** The text after the last occurrence of c (all of s when c does not occur). */
  function AfterLast(s: string, c: char): string
    decreases |s|
  {
    if s == [] then []
    else if s[|s| - 1] == c then []
    else AfterLast(s[..|s| - 1], c) + [s[|s| - 1]]
  }

  lemma {:induction false} AfterLastOf(a: string, t: string, c: char)
    requires c !in t
    ensures AfterLast(a + [c] + t, c) == t
    decreases |t|
  {
    var s := a + [c] + t;
    if t != [] {
      var t' := t[..|t| - 1];
      assert s[..|s| - 1] == a + [c] + t';
      AfterLastOf(a, t', c);
      assert t == t' + [t[|t| - 1]];
    }
  }

  /** A field followed by c and a field free of c is split at that c and no other. */
  lemma SplitAtLast(a1: string, t1: string, a2: string, t2: string, c: char)
    requires c !in t1 && c !in t2
    requires a1 + [c] + t1 == a2 + [c] + t2
    ensures a1 == a2 && t1 == t2
  {
    AfterLastOf(a1, t1, c);
    AfterLastOf(a2, t2, c);
    var s := a1 + [c] + t1;
    assert a1 == s[..|a1|];
    assert a2 == s[..|a2|];
  }
}

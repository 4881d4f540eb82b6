/**
 * The pieces of Go's `strings` and `strconv` packages that the gateway relies on:
 * ASCII lower-casing and case folding, prefix and substring tests, `strings.Join`,
 * and decimal `strconv.Atoi` / `strconv.Itoa` for the 64-bit `int` type.
 */
module GoStrings {
  import opened Wrappers

  /** Go's `int` on a 64-bit platform. */
  const MinInt64: int := -0x8000_0000_0000_0000
  const MaxInt64: int := 0x7FFF_FFFF_FFFF_FFFF

  /** Go's `uint32`. */
  type uint32 = x: int | 0 <= x < 0x1_0000_0000

  predicate IsUpper(c: char) { 'A' <= c <= 'Z' }

  /** Lower-casing of one character; only ASCII letters are mapped. */
  function LowerChar(c: char): (r: char)
    ensures IsUpper(c) ==> r as int == c as int + 32
    ensures !IsUpper(c) ==> r == c
  {
    if IsUpper(c) then (c as int + 32) as char else c
  }

  /** `strings.ToLower`, on ASCII letters. */
  function ToLower(s: string): (r: string)
    ensures |r| == |s|
    ensures forall i :: 0 <= i < |s| ==> r[i] == LowerChar(s[i])
  {
    if s == [] then [] else [LowerChar(s[0])] + ToLower(s[1..])
  }

  /** `strings.EqualFold`: equal under (ASCII) case folding. */
  function EqualFold(a: string, b: string): bool
  {
    if |a| != |b| then false
    else if a == [] then true
    else LowerChar(a[0]) == LowerChar(b[0]) && EqualFold(a[1..], b[1..])
  }

  /** Case folding agrees with comparing the lower-cased strings. */
  lemma {:induction false} EqualFoldIffLowerEqual(a: string, b: string)
    ensures EqualFold(a, b) <==> ToLower(a) == ToLower(b)
  {
    if |a| != |b| {
      assert |ToLower(a)| != |ToLower(b)|;
    } else if a != [] {
      EqualFoldIffLowerEqual(a[1..], b[1..]);
      assert ToLower(a) == [LowerChar(a[0])] + ToLower(a[1..]);
      assert ToLower(b) == [LowerChar(b[0])] + ToLower(b[1..]);
      if ToLower(a) == ToLower(b) {
        assert ToLower(a)[0] == ToLower(b)[0];
        assert ToLower(a)[1..] == ToLower(b)[1..];
      }
    }
  }

  /** Case folding is an equivalence: reflexive, symmetric and transitive. */
  lemma EqualFoldEquivalence(a: string, b: string, c: string)
    ensures EqualFold(a, a)
    ensures EqualFold(a, b) ==> EqualFold(b, a)
    ensures EqualFold(a, b) && EqualFold(b, c) ==> EqualFold(a, c)
  {
    EqualFoldIffLowerEqual(a, a);
    EqualFoldIffLowerEqual(a, b);
    EqualFoldIffLowerEqual(b, a);
    EqualFoldIffLowerEqual(b, c);
    EqualFoldIffLowerEqual(a, c);
  }

  /** `strings.HasPrefix`. */
  function HasPrefix(s: string, prefix: string): (r: bool)
    ensures r <==> |prefix| <= |s| && s[..|prefix|] == prefix
  {
    prefix <= s
  }

  /** `sub` occurs in `s` at position `i`. */
  predicate OccursAt(s: string, sub: string, i: int)
  {
    0 <= i <= |s| && sub <= s[i..]
  }

  /** `sub` occurs in `s` at position `i`, ignoring case. */
  predicate FoldOccursAt(s: string, sub: string, i: int)
  {
    0 <= i <= |s| && |sub| <= |s[i..]| && EqualFold(s[i..][..|sub|], sub)
  }

  lemma OccursAtTail(s: string, sub: string, i: int)
    requires s != [] && 1 <= i
    ensures OccursAt(s, sub, i) <==> OccursAt(s[1..], sub, i - 1)
    ensures FoldOccursAt(s, sub, i) <==> FoldOccursAt(s[1..], sub, i - 1)
  {
    if i <= |s| {
      assert s[1..][i - 1..] == s[i..];
    }
  }

  /** `strings.Contains`: `sub` occurs somewhere in `s`. */
  function Contains(s: string, sub: string): (r: bool)
    ensures r <==> exists i :: OccursAt(s, sub, i)
    decreases |s|
  {
    if sub <= s then
      assert OccursAt(s, sub, 0);
      true
    else if s == [] then false
    else
      var r := Contains(s[1..], sub);
      assert r <==> exists i :: OccursAt(s, sub, i) by {
        if r {
          var j :| OccursAt(s[1..], sub, j);
          OccursAtTail(s, sub, j + 1);
        }
        if i :| OccursAt(s, sub, i) {
          OccursAtTail(s, sub, i);
        }
      }
      r
  }

  /** `sub` occurs somewhere in `s` once both are case folded (a case-insensitive search). */
  function ContainsFold(s: string, sub: string): (r: bool)
    ensures r <==> exists i :: FoldOccursAt(s, sub, i)
    decreases |s|
  {
    if |sub| <= |s| && EqualFold(s[..|sub|], sub) then
      assert FoldOccursAt(s, sub, 0);
      true
    else if s == [] then false
    else
      var r := ContainsFold(s[1..], sub);
      assert r <==> exists i :: FoldOccursAt(s, sub, i) by {
        if r {
          var j :| FoldOccursAt(s[1..], sub, j);
          OccursAtTail(s, sub, j + 1);
        }
        if i :| FoldOccursAt(s, sub, i) {
          OccursAtTail(s, sub, i);
        }
      }
      r
  }

  /** The total length of the strings in a sequence. */
  function TotalLength(elems: seq<string>): nat
  {
    if elems == [] then 0 else |elems[0]| + TotalLength(elems[1..])
  }

  /**
   * `strings.Join`: the elements separated by `sep`, one separator between each pair of
   * neighbours and none at either end.
   */
  function Join(elems: seq<string>, sep: string): (r: string)
    ensures elems == [] ==> r == ""
    ensures |elems| == 1 ==> r == elems[0]
    ensures |elems| > 0 ==> elems[0] <= r
    ensures |elems| > 0 ==> |r| == TotalLength(elems) + (|elems| - 1) * |sep|
  {
    if elems == [] then ""
    else if |elems| == 1 then elems[0]
    else
      var r := elems[0] + sep + Join(elems[1..], sep);
      assert (|elems| - 1) * |sep| == |sep| + (|elems| - 2) * |sep|;
      r
  }

  /** Joining more than one element appends the separator and the last element to the join of the rest. */
  lemma {:induction false} JoinSnoc(elems: seq<string>, sep: string)
    requires |elems| >= 2
    ensures Join(elems, sep) == Join(elems[..|elems| - 1], sep) + sep + elems[|elems| - 1]
    decreases |elems|
  {
    var init := elems[..|elems| - 1];
    if |elems| > 2 {
      JoinSnoc(elems[1..], sep);
      assert elems[1..][..|elems[1..]| - 1] == init[1..];
      assert init[0] == elems[0];
    } else {
      assert init == [elems[0]];
    }
  }

  predicate IsDigit(c: char) { '0' <= c <= '9' }

  predicate AllDigits(s: string) { forall i :: 0 <= i < |s| ==> IsDigit(s[i]) }

  function DigitValue(c: char): nat
    requires IsDigit(c)
  {
    c as int - '0' as int
  }

  function DigitChar(d: nat): (c: char)
    requires d < 10
    ensures IsDigit(c) && DigitValue(c) == d
  {
    ('0' as int + d) as char
  }

  /** The value of a string of decimal digits, most significant first. */
  function DigitsValue(s: string): nat
    requires AllDigits(s)
  {
    if s == [] then 0 else DigitsValue(s[..|s| - 1]) * 10 + DigitValue(s[|s| - 1])
  }

  lemma DigitsValueAppend(s: string, c: char)
    requires AllDigits(s) && IsDigit(c)
    ensures AllDigits(s + [c]) && DigitsValue(s + [c]) == DigitsValue(s) * 10 + DigitValue(c)
  {
    assert (s + [c])[..|s|] == s;
  }

  /** The digits of a decimal text: everything after a leading sign, if there is one. */
  function DigitsPart(s: string): string
  {
    if |s| > 0 && (s[0] == '+' || s[0] == '-') then s[1..] else s
  }

  /** An optional sign followed by one or more decimal digits. */
  predicate IsDecimalText(s: string)
  {
    |DigitsPart(s)| > 0 && AllDigits(DigitsPart(s))
  }

  /** The value a decimal text denotes, negated after a leading minus. */
  function SignedValue(s: string): int
    requires IsDecimalText(s)
  {
    var d: int := DigitsValue(DigitsPart(s));
    if s[0] == '-' then -d else d
  }

  /**
   * `strconv.Atoi`: an optional '+' or '-' followed by at least one decimal digit,
   * whose value fits Go's 64-bit `int`; anything else is an error (None).
   */
  function Atoi(s: string): (r: Option<int>)
    ensures r.Some? ==> MinInt64 <= r.value <= MaxInt64
    ensures r.Some? ==> |s| > 0 && AllDigits(s[1..])
    ensures r.Some? && r.value < 0 ==> s[0] == '-'
    ensures AllDigits(s) && s != [] && DigitsValue(s) <= MaxInt64 ==> r == Some(DigitsValue(s))
    ensures s == [] || (!IsDigit(s[0]) && s[0] != '+' && s[0] != '-') ==> r == None
  {
    if |s| == 0 then None
    else if s[0] == '+' || s[0] == '-' then
      var digits := s[1..];
      if |digits| == 0 || !AllDigits(digits) then None
      else
        var d: int := DigitsValue(digits);
        var v := if s[0] == '-' then -d else d;
        if MinInt64 <= v <= MaxInt64 then Some(v) else None
    else if !AllDigits(s) then None
    else if DigitsValue(s) <= MaxInt64 then Some(DigitsValue(s))
    else None
  }

  /** Decimal digits of a natural number, without leading zeros. */
  function NatToDecimal(n: nat): (r: string)
    ensures |r| > 0 && AllDigits(r) && DigitsValue(r) == n
    ensures r[0] == '0' ==> n == 0
  {
    if n < 10 then [DigitChar(n)]
    else
      var prefix := NatToDecimal(n / 10);
      var r := prefix + [DigitChar(n % 10)];
      assert r[..|r| - 1] == prefix;
      r
  }

  /** Decimal digits in canonical form: at least one digit and no leading zero. */
  predicate IsCanonicalDecimal(s: string)
  {
    |s| > 0 && AllDigits(s) && (s[0] == '0' ==> |s| == 1)
  }

  lemma {:induction false} LeadingDigitPositive(s: string)
    requires |s| > 0 && AllDigits(s) && s[0] != '0'
    ensures DigitsValue(s) >= 1
    decreases |s|
  {
    if |s| > 1 {
      LeadingDigitPositive(s[..|s| - 1]);
    }
  }

  /** Every canonical digit string is what `NatToDecimal` prints for its value. */
  lemma {:induction false} NatToDecimalCanonical(s: string)
    requires IsCanonicalDecimal(s)
    ensures NatToDecimal(DigitsValue(s)) == s
    decreases |s|
  {
    if |s| > 1 {
      var init := s[..|s| - 1];
      LeadingDigitPositive(init);
      NatToDecimalCanonical(init);
      var n := DigitsValue(s);
      assert n / 10 == DigitsValue(init) && n % 10 == DigitValue(s[|s| - 1]);
      assert s == init + [s[|s| - 1]];
    }
  }

  /** `strconv.Itoa`. */
  function Itoa(i: int): (r: string)
    ensures |r| > 0
    ensures i < 0 <==> r[0] == '-'
    ensures i >= 0 ==> AllDigits(r) && DigitsValue(r) == i
    ensures i < 0 ==> AllDigits(r[1..]) && DigitsValue(r[1..]) == -i
  {
    if i < 0 then "-" + NatToDecimal(-i) else NatToDecimal(i)
  }

  /**
   * `strconv.Atoi` accepts exactly the decimal texts, signed or not, whose value fits the
   * 64-bit `int`, and yields that signed value.
   */
  lemma AtoiIsSignedDecimal(s: string)
    ensures Atoi(s).Some? <==> IsDecimalText(s) && MinInt64 <= SignedValue(s) <= MaxInt64
    ensures Atoi(s).Some? ==> Atoi(s).value == SignedValue(s)
  {
  }

  /** Signs, leading zeros, a lone sign and the two ends of the 64-bit range. */
  lemma AtoiExamples()
    ensures Atoi("-5") == Some(-5) && Atoi("+05") == Some(5)
    ensures Atoi("+") == None && Atoi("-") == None && Atoi("5a") == None
  {
    AtoiIsSignedDecimal("-5");
    AtoiIsSignedDecimal("+05");
    assert DigitsPart("-5") == "5" && DigitsPart("+05") == "05";
    assert DigitsValue("05") == 5 by {
      assert "05"[..1] == "0";
    }
    assert !AllDigits("5a") by {
      assert !IsDigit("5a"[1]);
    }
  }

  /**
   * The 64-bit range is checked after the sign is applied: a magnitude above the largest
   * `int` is refused unsigned or with '+', and with '-' only the least `int` is accepted.
   */
  lemma AtoiRange(n: nat)
    requires n > MaxInt64
    ensures Atoi(NatToDecimal(n)) == None && Atoi("+" + NatToDecimal(n)) == None
    ensures Atoi("-" + NatToDecimal(n)) == if n == -MinInt64 then Some(MinInt64) else None
  {
    var d := NatToDecimal(n);
    assert ("+" + d)[1..] == d && ("-" + d)[1..] == d;
  }

  /** `strconv.Itoa` and `strconv.Atoi` are inverse on every 64-bit `int`. */
  lemma AtoiItoa(i: int)
    requires MinInt64 <= i <= MaxInt64
    ensures Atoi(Itoa(i)) == Some(i)
  {
    var s := Itoa(i);
    if i < 0 {
      assert s[1..] == NatToDecimal(-i);
    }
  }
}

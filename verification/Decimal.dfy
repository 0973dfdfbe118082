/**
 * Canonical decimal text and the arithmetic the Redis scripts do on it
 * (redis.py: canonical_nonnegative, decimal_gte, decimal_add).
 */
module Decimal {

  predicate IsDigit(c: char) { '0' <= c <= '9' }

  function DigitValue(c: char): (v: nat)
    requires IsDigit(c)
    ensures v < 10
  {
    c as int - '0' as int
  }

  function DigitChar(v: nat): (c: char)
    requires v < 10
    ensures IsDigit(c) && DigitValue(c) == v
  {
    (v + '0' as int) as char
  }

  predicate AllDigits(s: string) { forall i :: 0 <= i < |s| ==> IsDigit(s[i]) }

  /** The Lua pattern test: digits only, and no leading zero but for "0" itself. */
  predicate Canonical(s: string) {
    s != [] && AllDigits(s) && (s == "0" || s[0] != '0')
  }

  predicate CanonicalPositive(s: string) { Canonical(s) && s != "0" }

  /** The number a digit string denotes; the empty string denotes 0. */
  function Value(s: string): nat
    requires AllDigits(s)
  {
    if s == [] then 0 else 10 * Value(s[..|s| - 1]) + DigitValue(s[|s| - 1])
  }

  /** The decimal text of a number, as str() writes it. */
  function DecimalText(n: nat): string {
    if n < 10 then [DigitChar(n)] else DecimalText(n / 10) + [DigitChar(n % 10)]
  }

  /** The decimal text of an integer of either sign. */
  function IntText(i: int): string {
    if i < 0 then "-" + DecimalText(-i) else DecimalText(i)
  }

  function Pow10(k: nat): (p: nat)
    ensures p >= 1
  {
    if k == 0 then 1 else 10 * Pow10(k - 1)
  }

  // ----------------------------------------------- text and number agree

  lemma {:induction false} DecimalDenotes(n: nat)
    ensures Canonical(DecimalText(n)) && Value(DecimalText(n)) == n
    ensures n > 0 ==> DecimalText(n)[0] != '0'
  {
    if n < 10 {
      assert Value([]) == 0;
      assert [DigitChar(n)][..0] == [];
    } else {
      DecimalDenotes(n / 10);
      var s := DecimalText(n / 10) + [DigitChar(n % 10)];
      assert s[..|s| - 1] == DecimalText(n / 10);
    }
  }

  lemma {:induction false} CanonicalIsDecimal(s: string)
    requires Canonical(s)
    ensures DecimalText(Value(s)) == s
  {
    var front := s[..|s| - 1];
    if front == [] {
      assert s == [s[0]];
      assert Value(s) == DigitValue(s[0]);
    } else {
      assert front[0] == s[0];
      CanonicalIsDecimal(front);
      ValuePositive(front);
      assert s == front + [s[|s| - 1]];
    }
  }

  lemma {:induction false} ValuePositive(s: string)
    requires Canonical(s) && s != "0"
    ensures Value(s) > 0
  {
    var front := s[..|s| - 1];
    if front != [] {
      assert front[0] == s[0];
      ValuePositive(front);
    } else {
      assert s == [s[0]];
    }
  }

  /** Canonical text is unique: equal numbers have equal text and conversely. */
  lemma {:induction false} CanonicalUnique(a: string, b: string)
    requires Canonical(a) && Canonical(b)
    ensures a == b <==> Value(a) == Value(b)
  {
    CanonicalIsDecimal(a);
    CanonicalIsDecimal(b);
  }

  lemma {:induction false} IntTextInjective(i: int, j: int)
    requires IntText(i) == IntText(j)
    ensures i == j
  {
    DecimalDenotes(if i < 0 then -i else i);
    DecimalDenotes(if j < 0 then -j else j);
    if i < 0 && j < 0 {
      assert IntText(i)[1..] == DecimalText(-i);
      assert IntText(j)[1..] == DecimalText(-j);
    }
  }

  // ------------------------------------------------------------ comparison

  /** Lua's `>=` on two strings: lexicographic by byte. */
  predicate LexGe(a: string, b: string) {
    if b == [] then true
    else if a == [] then false
    else a[0] > b[0] || (a[0] == b[0] && LexGe(a[1..], b[1..]))
  }

  predicate DecimalGe(left: string, right: string) {
    if |left| != |right| then |left| > |right| else LexGe(left, right)
  }

  lemma {:induction false} ValueSplit(s: string, t: string)
    requires AllDigits(s) && AllDigits(t)
    ensures AllDigits(s + t)
    ensures Value(s + t) == Value(s) * Pow10(|t|) + Value(t)
  {
    if t == [] {
      assert s + t == s;
    } else {
      var front := t[..|t| - 1];
      assert (s + t)[..|s + t| - 1] == s + front;
      assert (s + t)[|s + t| - 1] == t[|t| - 1];
      ValueSplit(s, front);
      TenTimes(Value(s), Pow10(|front|));
    }
  }

  lemma TenTimes(v: int, p: int)
    ensures v * (10 * p) == 10 * (v * p)
  {
  }

  lemma {:induction false} ValueBound(s: string)
    requires AllDigits(s)
    ensures Value(s) < Pow10(|s|)
  {
    if s != [] {
      ValueBound(s[..|s| - 1]);
    }
  }

  lemma {:induction false} ValueLowerBound(s: string)
    requires CanonicalPositive(s)
    ensures Value(s) >= Pow10(|s| - 1)
  {
    var front := s[..|s| - 1];
    if front == [] {
      ValuePositive(s);
    } else {
      assert front[0] == s[0];
      ValueLowerBound(front);
    }
  }

  lemma {:induction false} Pow10Monotone(a: nat, b: nat)
    requires a <= b
    ensures Pow10(a) <= Pow10(b)
  {
    if a < b { Pow10Monotone(a, b - 1); }
  }

  lemma {:induction false} LexIsNumeric(a: string, b: string)
    requires AllDigits(a) && AllDigits(b) && |a| == |b|
    ensures LexGe(a, b) <==> Value(a) >= Value(b)
  {
    if a != [] {
      LexIsNumeric(a[1..], b[1..]);
      ValueSplit(a[..1], a[1..]);
      ValueSplit(b[..1], b[1..]);
      ValueBound(a[1..]);
      ValueBound(b[1..]);
      assert a == a[..1] + a[1..] && b == b[..1] + b[1..];
      assert Value(a[..1]) == DigitValue(a[0]) && Value(b[..1]) == DigitValue(b[0]);
      LeadingDigitDecides(DigitValue(a[0]), DigitValue(b[0]), Value(a[1..]), Value(b[1..]), Pow10(|a| - 1));
    }
  }

  lemma LeadingDigitDecides(x: nat, y: nat, u: nat, v: nat, p: nat)
    requires u < p && v < p
    ensures x * p + u >= y * p + v <==> x > y || (x == y && u >= v)
  {
    if x > y {
      assert x * p >= (y + 1) * p;
      assert (y + 1) * p == y * p + p;
    } else if x < y {
      assert y * p >= (x + 1) * p;
      assert (x + 1) * p == x * p + p;
    }
  }

  /** decimal_gte is numeric order on canonical text of any length. */
  lemma {:induction false} DecimalGeIsNumeric(left: string, right: string)
    requires Canonical(left) && Canonical(right)
    ensures DecimalGe(left, right) <==> Value(left) >= Value(right)
  {
    if |left| == |right| {
      LexIsNumeric(left, right);
    } else if |left| > |right| {
      LongerIsGreater(left, right);
    } else {
      LongerIsGreater(right, left);
    }
  }

  lemma {:induction false} LongerIsGreater(long: string, short: string)
    requires Canonical(long) && Canonical(short) && |long| > |short|
    ensures Value(long) > Value(short)
  {
    ValueBound(short);
    ValueLowerBound(long);
    Pow10Monotone(|short|, |long| - 1);
  }

  /** decimal_gte as the script computes it. */
  method DecimalGte(left: string, right: string) returns (ge: bool)
    requires Canonical(left) && Canonical(right)
    ensures ge <==> Value(left) >= Value(right)
  {
    DecimalGeIsNumeric(left, right);
    if |left| != |right| {
      return |left| > |right|;
    }
    ge := LexGe(left, right);
  }

  // -------------------------------------------------------------- addition

  /** The digit at place i counted from the left end, or 0 once the text is used up. */
  function DigitAt(s: string, i: nat): (d: nat)
    requires AllDigits(s) && i <= |s|
    ensures d < 10
  {
    if i > 0 then DigitValue(s[i - 1]) else 0
  }

  function Down(i: nat): nat { if i > 0 then i - 1 else 0 }

  /** The digit and the carry of a column: total % 10 and total / 10. */
  function Unit(total: nat): (d: nat)
    requires total < 20
    ensures d < 10 && d == total % 10
  {
    if total < 10 then total else total - 10
  }

  function Carried(total: nat): (c: nat)
    requires total < 20
    ensures c <= 1 && c == total / 10
  {
    if total < 10 then 0 else 1
  }

  function Column(left: string, right: string, li: nat, ri: nat, carry: nat): (total: nat)
    requires AllDigits(left) && AllDigits(right) && li <= |left| && ri <= |right| && carry <= 1
    ensures total < 20
  {
    DigitAt(left, li) + DigitAt(right, ri) + carry
  }

  /** The digits the loop writes from places li and ri on, most significant first. */
  function SumText(left: string, right: string, li: nat, ri: nat, carry: nat): (text: string)
    requires AllDigits(left) && AllDigits(right) && li <= |left| && ri <= |right| && carry <= 1
    ensures AllDigits(text)
    decreases li + ri + carry
  {
    if li == 0 && ri == 0 && carry == 0 then ""
    else
      var total := Column(left, right, li, ri, carry);
      SumText(left, right, Down(li), Down(ri), Carried(total)) + [DigitChar(Unit(total))]
  }

  /** The number the first i digits denote. */
  function UpTo(s: string, i: nat): nat
    requires AllDigits(s) && i <= |s|
  {
    if i == 0 then 0 else 10 * UpTo(s, i - 1) + DigitValue(s[i - 1])
  }

  lemma {:induction false} UpToIsValue(s: string, i: nat)
    requires AllDigits(s) && i <= |s|
    ensures UpTo(s, i) == Value(s[..i])
  {
    if i > 0 {
      UpToIsValue(s, i - 1);
      assert s[..i][..i - 1] == s[..i - 1];
    }
  }

  lemma WholeValue(s: string)
    requires AllDigits(s)
    ensures UpTo(s, |s|) == Value(s)
  {
    UpToIsValue(s, |s|);
    assert s[..|s|] == s;
  }

  lemma {:induction false} SumTextDenotes(left: string, right: string, li: nat, ri: nat, carry: nat)
    requires AllDigits(left) && AllDigits(right) && li <= |left| && ri <= |right| && carry <= 1
    ensures Value(SumText(left, right, li, ri, carry)) == UpTo(left, li) + UpTo(right, ri) + carry
    decreases li + ri + carry
  {
    if li > 0 || ri > 0 || carry > 0 {
      var total := Column(left, right, li, ri, carry);
      SumTextDenotes(left, right, Down(li), Down(ri), Carried(total));
      var rest := SumText(left, right, Down(li), Down(ri), Carried(total));
      assert (rest + [DigitChar(Unit(total))])[..|rest|] == rest;
    }
  }

  lemma {:induction false} PrefixPositive(s: string, i: nat)
    requires Canonical(s) && 0 < i <= |s|
    ensures UpTo(s, i) == 0 ==> s == "0"
  {
    UpToIsValue(s, i);
    if s != "0" { ValuePositive(s[..i]); }
  }

  lemma {:induction false} SumTextCanonical(left: string, right: string, li: nat, ri: nat, carry: nat)
    requires Canonical(left) && Canonical(right) && li <= |left| && ri <= |right| && carry <= 1
    requires li > 0 || ri > 0 || carry > 0
    ensures Canonical(SumText(left, right, li, ri, carry))
    decreases li + ri + carry
  {
    var total := Column(left, right, li, ri, carry);
    var rest := SumText(left, right, Down(li), Down(ri), Carried(total));
    if Down(li) > 0 || Down(ri) > 0 || Carried(total) > 0 {
      SumTextCanonical(left, right, Down(li), Down(ri), Carried(total));
      SumTextPositive(left, right, Down(li), Down(ri), Carried(total));
    }
  }

  lemma SumTextPositive(left: string, right: string, li: nat, ri: nat, carry: nat)
    requires Canonical(left) && Canonical(right)
    requires li == 0 || li < |left|
    requires (ri == 0 || ri < |right|) && carry <= 1
    requires li > 0 || ri > 0 || carry > 0
    ensures SumText(left, right, li, ri, carry) != "0"
  {
    SumTextDenotes(left, right, li, ri, carry);
    if li > 0 { PrefixPositive(left, li); }
    if ri > 0 { PrefixPositive(right, ri); }
    assert "0"[..0] == [];
    assert Value("0") == 0;
    hide SumText, Value, Canonical, UpTo;
  }

  lemma AddStep(left: string, right: string, li: nat, ri: nat, carry: nat, output: string)
    requires AllDigits(left) && AllDigits(right) && li <= |left| && ri <= |right| && carry <= 1
    requires li > 0 || ri > 0 || carry > 0
    ensures var total := Column(left, right, li, ri, carry);
      SumText(left, right, li, ri, carry) + output
        == SumText(left, right, Down(li), Down(ri), Carried(total)) + ([DigitChar(Unit(total))] + output)
  {
  }

  lemma NothingToAdd(left: string, right: string)
    requires AllDigits(left) && AllDigits(right)
    ensures SumText(left, right, 0, 0, 0) == ""
  {
  }

  lemma SumTextValue(left: string, right: string)
    requires AllDigits(left) && AllDigits(right)
    ensures Value(SumText(left, right, |left|, |right|, 0)) == Value(left) + Value(right)
  {
    WholeValue(left);
    WholeValue(right);
    SumTextDenotes(left, right, |left|, |right|, 0);
  }

  lemma SumTextWhole(left: string, right: string)
    requires Canonical(left) && Canonical(right)
    ensures Canonical(SumText(left, right, |left|, |right|, 0))
  {
    SumTextCanonical(left, right, |left|, |right|, 0);
  }

  /** decimal_add: the sum of two canonical texts is the canonical text of the sum. */
  method DecimalAdd(left: string, right: string) returns (output: string)
    requires Canonical(left) && Canonical(right)
    ensures Canonical(output) && Value(output) == Value(left) + Value(right)
  {
    output := AddColumns(left, right);
    SumTextWhole(left, right);
    SumTextValue(left, right);
  }

  method AddColumns(left: string, right: string) returns (output: string)
    requires AllDigits(left) && AllDigits(right)
    ensures output == SumText(left, right, |left|, |right|, 0)
  {
    hide SumText, DigitChar;
    NothingToAdd(left, right);
    var carry: nat := 0;
    output := "";
    var li: nat, ri: nat := |left|, |right|;
    ghost var goal := SumText(left, right, li, ri, carry);
    assert goal + output == goal;
    while li > 0 || ri > 0 || carry > 0
      invariant li <= |left| && ri <= |right| && carry <= 1
      invariant SumText(left, right, li, ri, carry) + output == goal
      decreases li + ri + carry
    {
      AddStep(left, right, li, ri, carry, output);
      var ld, rd := 0, 0;
      if li > 0 {
        ld := DigitValue(left[li - 1]);
        li := li - 1;
      }
      if ri > 0 {
        rd := DigitValue(right[ri - 1]);
        ri := ri - 1;
      }
      var total := ld + rd + carry;
      output := [DigitChar(total % 10)] + output;
      carry := total / 10;
    }
    assert output == goal;
  }
}

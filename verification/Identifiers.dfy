/**
 Identifier checksums: the LEI of ISO 17442 with the MOD 97-10 system of ISO/IEC 7064, and the IMO ship number.
 Codes are strings of ASCII characters.
 */
module Identifiers {
  import opened Base

  predicate IsDigit(c: char) { '0' <= c <= '9' }
  predicate IsLetter(c: char) { 'A' <= c <= 'Z' }
  predicate IsAlnum(c: char) { IsDigit(c) || IsLetter(c) }

  /** `str.upper` on ASCII. */
  function UpperChar(c: char): char { if 'a' <= c <= 'z' then c - 'a' + 'A' else c }
  function Upper(s: string): (r: string)
    ensures |r| == |s| && forall i :: 0 <= i < |s| ==> r[i] == UpperChar(s[i])
  {
    seq(|s|, i requires 0 <= i < |s| => UpperChar(s[i]))
  }

  /** `int(ch, 36)`: a digit is worth itself, a letter 10 to 35. */
  function Worth(c: char): (w: nat)
    requires IsAlnum(c)
    ensures IsDigit(c) ==> w <= 9
    ensures IsLetter(c) ==> 10 <= w <= 35
  {
    if IsDigit(c) then (c as int - '0' as int) as nat else (c as int - 'A' as int + 10) as nat
  }

  /** The power of ten by which a character's decimal form shifts what precedes it: one digit or two. */
  function Shift(c: char): nat { if IsDigit(c) then 10 else 100 }

  predicate Alnum(s: string) { forall i :: 0 <= i < |s| ==> IsAlnum(s[i]) }

  /** The big decimal number a code spells when every character is written as its worth. */
  function Number(s: string): nat
    requires Alnum(s)
  {
    if s == "" then 0 else Number(s[..|s| - 1]) * Shift(s[|s| - 1]) + Worth(s[|s| - 1])
  }

  /** The same number modulo 97, folded from the left without ever building it. */
  method Mod97(s: string) returns (m: nat)
    requires Alnum(s)
    ensures m == Number(s) % 97
  {
    m := 0;
    for i := 0 to |s|
      invariant m == Number(s[..i]) % 97
    {
      assert s[..i + 1][..i] == s[..i];
      ModStep(Number(s[..i]), Shift(s[i]), Worth(s[i]));
      m := (m * Shift(s[i]) + Worth(s[i])) % 97;
    }
    assert s[..|s|] == s;
  }

  lemma {:induction false} ModStep(x: nat, k: nat, d: nat)
    ensures ((x % 97) * k + d) % 97 == (x * k + d) % 97
  {
    var q := x / 97;
    assert x * k + d == (x % 97) * k + d + 97 * (q * k) by {
      assert x == 97 * q + x % 97;
    }
    ModPlus((x % 97) * k + d, q * k);
  }

  lemma {:induction false} ModPlus(a: int, q: int)
    ensures (a + 97 * q) % 97 == a % 97
  {
  }

  predicate WellFormed(s: string) {
    |s| == 20 && Alnum(s) && IsDigit(s[18]) && IsDigit(s[19])
  }

  predicate LeiOk(lei: string) {
    WellFormed(Upper(lei)) && Number(Upper(lei)) % 97 == 1
  }

  // ---------------------------------------------------------------------------------------------
  // The number as an algebra
  // ---------------------------------------------------------------------------------------------

  /** How far a whole code shifts what precedes it. */
  function Span(s: string): (w: nat)
    ensures 1 <= w
  {
    if s == "" then 1 else Span(s[..|s| - 1]) * Shift(s[|s| - 1])
  }

  lemma {:induction false} NumberConcat(s: string, t: string)
    requires Alnum(s) && Alnum(t)
    ensures Alnum(s + t) && Number(s + t) == Number(s) * Span(t) + Number(t)
    decreases |t|
  {
    if t == "" {
      assert s + t == s;
    } else {
      var n := |t| - 1;
      var init, k, d := t[..n], Shift(t[n]), Worth(t[n]);
      NumberConcat(s, init);
      assert (s + t)[..|s + t| - 1] == s + init;
      ShiftSum(Number(s), Span(init), Number(init), k, d);
    }
  }

  lemma {:induction false} ShiftSum(a: int, b: int, c: int, k: int, d: int)
    ensures (a * b + c) * k + d == a * (b * k) + (c * k + d)
  {
    assert (a * b) * k == a * (b * k);
  }

  /** Ten is invertible modulo 97. */
  lemma {:induction false} TenCancels(x: int)
    requires (10 * x) % 97 == 0
    ensures x % 97 == 0
  {
    var q := 10 * x / 97;
    assert 10 * x == 97 * q;
    assert 680 * x == 97 * (68 * q);
    assert x == 97 * (68 * q - 7 * x);
    ModPlus(0, 68 * q - 7 * x);
  }

  lemma {:induction false} SpanCancels(x: int, s: string)
    requires (x * Span(s)) % 97 == 0
    ensures x % 97 == 0
    decreases |s|
  {
    if s != "" {
      var n := |s| - 1;
      var y := x * Span(s[..n]);
      assert x * Span(s) == y * Shift(s[n]);
      if IsDigit(s[n]) {
        assert y * Shift(s[n]) == 10 * y;
        TenCancels(y);
      } else {
        assert y * Shift(s[n]) == 10 * (10 * y);
        TenCancels(10 * y);
        TenCancels(y);
      }
      SpanCancels(x, s[..n]);
    }
  }

  lemma {:induction false} SameRemainder(a: int, b: int)
    requires a % 97 == b % 97
    ensures (a - b) % 97 == 0
  {
    var p, q := a / 97, b / 97;
    assert a - b == 97 * (p - q);
    ModPlus(0, p - q);
  }

  /** Replacing a part by one of the same length in digits changes the remainder unless the parts agree modulo 97. */
  lemma {:induction false} ReplacedPartShows(u: string, x: string, y: string, v: string)
    requires Alnum(u) && Alnum(x) && Alnum(y) && Alnum(v) && Span(x) == Span(y)
    requires Number(u + x + v) % 97 == Number(u + y + v) % 97
    ensures (Number(x) - Number(y)) % 97 == 0
  {
    NumberConcat(u, x);
    NumberConcat(u, y);
    NumberConcat(u + x, v);
    NumberConcat(u + y, v);
    SameRemainder(Number(u + x + v), Number(u + y + v));
    Difference(Number(u) * Span(x), Number(x), Number(y), Span(v), Number(v));
    SpanCancels(Number(x) - Number(y), v);
  }

  lemma {:induction false} Difference(a: int, x: int, y: int, w: int, v: int)
    ensures ((a + x) * w + v) - ((a + y) * w + v) == (x - y) * w
  {
    assert (a + x) * w == a * w + x * w && (a + y) * w == a * w + y * w && (x - y) * w == x * w - y * w;
  }

  // ---------------------------------------------------------------------------------------------
  // Errors that are caught
  // ---------------------------------------------------------------------------------------------

  predicate SameClass(a: char, b: char) { (IsDigit(a) && IsDigit(b)) || (IsLetter(a) && IsLetter(b)) }

  lemma {:induction false} OneChar(c: char)
    requires IsAlnum(c)
    ensures Alnum([c]) && Number([c]) == Worth(c) && Span([c]) == Shift(c)
  {
    assert [c][..0] == "";
  }

  lemma {:induction false} TwoChars(c: char, d: char)
    requires IsAlnum(c) && IsAlnum(d)
    ensures Alnum([c, d]) && Number([c, d]) == Worth(c) * Shift(d) + Worth(d) && Span([c, d]) == Shift(c) * Shift(d)
  {
    assert [c, d][..1] == [c];
    OneChar(c);
  }

  lemma {:induction false} WorthIsInjective(a: char, b: char)
    requires SameClass(a, b) && Worth(a) == Worth(b)
    ensures a == b
  {
  }

  /** In a code of any length, one wrong digit for a digit or one wrong letter for a letter is always caught. */
  lemma {:induction false} SubstitutionIsCaught(u: string, a: char, b: char, v: string)
    requires Alnum(u) && Alnum(v) && SameClass(a, b) && a != b
    ensures Alnum(u + [a] + v) && Alnum(u + [b] + v)
    ensures Number(u + [a] + v) % 97 != Number(u + [b] + v) % 97
  {
    OneChar(a);
    OneChar(b);
    if Number(u + [a] + v) % 97 == Number(u + [b] + v) % 97 {
      ReplacedPartShows(u, [a], [b], v);
      if Worth(a) == Worth(b) {
        WorthIsInjective(a, b);
      }
    }
  }

  /** Two adjacent different characters of one class in the wrong order are always caught. */
  lemma {:induction false} SwapIsCaught(u: string, a: char, b: char, v: string)
    requires Alnum(u) && Alnum(v) && SameClass(a, b) && a != b
    ensures Alnum(u + [a, b] + v) && Alnum(u + [b, a] + v)
    ensures Number(u + [a, b] + v) % 97 != Number(u + [b, a] + v) % 97
  {
    TwoChars(a, b);
    TwoChars(b, a);
    if Number(u + [a, b] + v) % 97 == Number(u + [b, a] + v) % 97 {
      assert Span([a, b]) == Span([b, a]);
      ReplacedPartShows(u, [a, b], [b, a], v);
      SwapDifference(Worth(a), Worth(b), Shift(a));
      WorthIsInjective(a, b);
    }
  }

  /** Swapping two values of one class shifts the number by 9 or 99 times their difference, which 97 does not divide. */
  lemma {:induction false} SwapDifference(x: int, y: int, k: int)
    requires (k == 10 && 0 <= x <= 9 && 0 <= y <= 9) || (k == 100 && 10 <= x <= 35 && 10 <= y <= 35)
    requires ((x * k + y) - (y * k + x)) % 97 == 0
    ensures x == y
  {
    if k == 10 {
      assert (x * 10 + y) - (y * 10 + x) == 9 * (x - y);
    } else {
      assert (x * 100 + y) - (y * 100 + x) == 97 * (x - y) + 2 * (x - y);
      ModPlus(2 * (x - y), x - y);
    }
  }

  lemma {:induction false} UpperIsIdentity(s: string)
    requires Alnum(s)
    ensures Upper(s) == s
  {
  }

  lemma {:induction false} UpperConcat(u: string, w: string, v: string)
    ensures Upper(u + w + v) == Upper(u) + Upper(w) + Upper(v)
  {
  }

  lemma {:induction false} AlnumParts(u: string, w: string, v: string)
    requires Alnum(u + w + v)
    ensures Alnum(u) && Alnum(w) && Alnum(v)
  {
    var s := u + w + v;
    assert forall i :: 0 <= i < |u| ==> u[i] == s[i];
    assert forall i :: 0 <= i < |w| ==> w[i] == s[|u| + i];
    assert forall i :: 0 <= i < |v| ==> v[i] == s[|u| + |w| + i];
  }

  /**
   For LEIs in either case of letters: mistaking a digit for another digit or a letter for another letter, or swapping
   two neighbours of one class, makes a valid code invalid.
   */
  lemma {:induction false} LeiErrorsAreCaught(u: string, a: char, b: char, v: string)
    requires SameClass(UpperChar(a), UpperChar(b)) && UpperChar(a) != UpperChar(b)
    ensures LeiOk(u + [a] + v) ==> !LeiOk(u + [b] + v)
    ensures LeiOk(u + [a, b] + v) ==> !LeiOk(u + [b, a] + v)
  {
    hide Number;
    if LeiOk(u + [a] + v) {
      UpperConcat(u, [a], v);
      UpperConcat(u, [b], v);
      AlnumParts(Upper(u), Upper([a]), Upper(v));
      assert Upper([a]) == [UpperChar(a)] && Upper([b]) == [UpperChar(b)];
      SubstitutionIsCaught(Upper(u), UpperChar(a), UpperChar(b), Upper(v));
    }
    if LeiOk(u + [a, b] + v) {
      UpperConcat(u, [a, b], v);
      UpperConcat(u, [b, a], v);
      AlnumParts(Upper(u), Upper([a, b]), Upper(v));
      assert Upper([a, b]) == [UpperChar(a), UpperChar(b)] && Upper([b, a]) == [UpperChar(b), UpperChar(a)];
      SwapIsCaught(Upper(u), UpperChar(a), UpperChar(b), Upper(v));
    }
  }

  // ---------------------------------------------------------------------------------------------
  // Check digits
  // ---------------------------------------------------------------------------------------------

  predicate IsPrefix(p: string) { |p| == 18 && Alnum(p) }

  function Pair(k: nat): string
    requires k < 100
  {
    [(k / 10) as char + '0', (k % 10) as char + '0']
  }

  /** The check pair the standard prescribes: 98 less the remainder of the code with 00 in its place. */
  function CheckPair(p: string): (k: nat)
    requires IsPrefix(p)
    ensures 2 <= k <= 98
  {
    98 - (Number(p) * 100) % 97
  }

  lemma {:induction false} PairNumber(k: nat)
    requires k < 100
    ensures Alnum(Pair(k)) && Number(Pair(k)) == k && Span(Pair(k)) == 100 && IsDigit(Pair(k)[0]) && IsDigit(Pair(k)[1])
  {
    TwoChars(Pair(k)[0], Pair(k)[1]);
  }

  lemma {:induction false} WithPair(p: string, k: nat)
    requires IsPrefix(p) && k < 100
    ensures LeiOk(p + Pair(k)) <==> (Number(p) * 100 + k) % 97 == 1
  {
    PairNumber(k);
    NumberConcat(p, Pair(k));
    UpperIsIdentity(p + Pair(k));
  }

  lemma {:induction false} PairsModulo(x: nat, k: nat)
    requires k < 100
    ensures (x + k) % 97 == 1 <==> k in {98 - x % 97, 98 - x % 97 + 97, 98 - x % 97 - 97}
  {
    ModPlus(x % 97 + k, x / 97);
    assert x + k == x % 97 + k + 97 * (x / 97);
  }

  /** Every prefix has exactly one valid check pair in the standard's range 02 to 98. */
  lemma {:induction false} OneCheckPair(p: string, k: nat)
    requires IsPrefix(p) && 2 <= k <= 98
    ensures LeiOk(p + Pair(k)) <==> k == CheckPair(p)
  {
    WithPair(p, k);
    PairsModulo(Number(p) * 100, k);
  }

  /**
   The code, which does not restrict the range, accepts a second pair outside it exactly when the prescribed one is
   02 (also 99), 97 (also 00) or 98 (also 01).
   */
  lemma {:induction false} SecondPairIff(p: string, k: nat)
    requires IsPrefix(p) && k < 100 && !(2 <= k <= 98)
    ensures LeiOk(p + Pair(k)) <==> (CheckPair(p) == 2 && k == 99) || (CheckPair(p) == 97 && k == 0) || (CheckPair(p) == 98 && k == 1)
  {
    WithPair(p, k);
    PairsModulo(Number(p) * 100, k);
  }

  ghost predicate Zeros(p: string) { forall i :: 0 <= i < |p| ==> p[i] == '0' }

  lemma {:induction false} ZerosAreZero(p: string)
    requires Zeros(p)
    ensures Alnum(p) && Number(p) == 0
  {
    if p != "" {
      ZerosAreZero(p[..|p| - 1]);
    }
  }

  /** The prefix of eighteen zeros is accepted with 98, as prescribed, and with 01. */
  lemma {:induction false} SecondPairAccepted(p: string)
    requires |p| == 18 && Zeros(p)
    ensures LeiOk(p + Pair(98)) && LeiOk(p + Pair(1))
  {
    ZerosAreZero(p);
    assert CheckPair(p) == 98;
    hide Number, CheckPair;
    OneCheckPair(p, 98);
    SecondPairIff(p, 1);
  }

  // ---------------------------------------------------------------------------------------------
  // Base 36, and a code that is valid
  // ---------------------------------------------------------------------------------------------

  /** Digits count up from zero, letters from ten to thirty-five. */
  lemma {:induction false} WorthCountsUp(c: char)
    ensures Worth('0') == 0 && Worth('9') == 9 && Worth('A') == 10 && Worth('Z') == 35
    ensures '0' <= c < '9' || 'A' <= c < 'Z' ==> Worth(c + 1 as char) == Worth(c) + 1
  {
  }

  /** A small letter is worth what the capital is, and nothing else is changed by upper-casing. */
  lemma {:induction false} SmallLettersCountToo(c: char)
    ensures 'a' <= c <= 'z' ==> IsLetter(UpperChar(c)) && Worth(UpperChar(c)) == 10 + (c as int - 'a' as int)
    ensures !('a' <= c <= 'z') ==> UpperChar(c) == c
  {
  }

  /** Folding a code from the left, with the remainder after each character given. */
  lemma {:induction false} FoldIs(s: string, ms: seq<nat>, i: nat)
    requires Alnum(s) && |ms| == |s| + 1 && ms[0] == 0 && i <= |s|
    requires forall k :: 0 <= k < |s| ==> ms[k + 1] == (ms[k] * Shift(s[k]) + Worth(s[k])) % 97
    ensures Number(s[..i]) % 97 == ms[i]
  {
    if i != 0 {
      FoldIs(s, ms, i - 1);
      assert s[..i][..i - 1] == s[..i - 1];
      ModStep(Number(s[..i - 1]), Shift(s[i - 1]), Worth(s[i - 1]));
    }
  }

  const SOME_LEI := "5493001KJTIIGC8Y1R12"

  lemma {:induction false} SomeLeiFolds()
    ensures Alnum(SOME_LEI) && Number(SOME_LEI) % 97 == 1
  {
    var ms := [0, 5, 54, 64, 61, 28, 86, 85, 81, 68, 39, 38, 35, 24, 84, 72, 56, 76, 61, 29, 1];
    hide Number;
    FoldIs(SOME_LEI, ms, 20);
    assert SOME_LEI[..20] == SOME_LEI;
  }

  /** A code that mixes letters and digits is valid in either case; with its last digit changed it is not. */
  lemma {:induction false} ValidLei()
    ensures LeiOk("5493001KJTIIGC8Y1R12") && LeiOk("5493001kjtiigc8y1r12") && !LeiOk("5493001KJTIIGC8Y1R13")
  {
    SomeLeiFolds();
    UpperIsIdentity(SOME_LEI);
    assert Upper("5493001kjtiigc8y1r12") == SOME_LEI;
    hide Number, Upper, Alnum;
    var u := "5493001KJTIIGC8Y1R1";
    assert u + ['2'] + "" == SOME_LEI && u + ['3'] + "" == "5493001KJTIIGC8Y1R13";
    LeiErrorsAreCaught(u, '2', '3', "");
  }

  // ---------------------------------------------------------------------------------------------
  // IMO
  // ---------------------------------------------------------------------------------------------

  predicate Digits(s: string) { forall i :: 0 <= i < |s| ==> IsDigit(s[i]) }

  /** The first `n` digits weighted 7, 6, 5 and so on. */
  function Weighted(s: string, n: nat): int
    requires Digits(s) && n <= |s|
  {
    if n == 0 then 0 else Weighted(s, n - 1) + Worth(s[n - 1]) * (8 - n)
  }

  predicate ImoOk(imo: string) {
    |imo| == 7 && Digits(imo) && Weighted(imo, 6) % 10 == Worth(imo[6])
  }

  /** A ship's number that is valid, the same with another check digit, and one that is too short. */
  lemma {:induction false} ValidImo()
    ensures ImoOk("9074729") && !ImoOk("9074728") && !ImoOk("907472")
  {
    var a := "9074729";
    assert Weighted(a, 6) == 9 * 7 + 0 * 6 + 7 * 5 + 4 * 4 + 7 * 3 + 2 * 2 == 139 by {
      WeightedSix(a);
    }
    assert a[6 := '8'] == "9074728";
    ImoErrorMissedIff(a, 6, '8');
    hide Weighted;
  }

  lemma {:induction false} WeightedSix(s: string)
    requires |s| == 7 && Digits(s)
    ensures Weighted(s, 6) == Worth(s[0]) * 7 + Worth(s[1]) * 6 + Worth(s[2]) * 5 + Worth(s[3]) * 4 + Worth(s[4]) * 3 + Worth(s[5]) * 2
  {
    assert Weighted(s, 1) == Worth(s[0]) * 7;
    assert Weighted(s, 2) == Weighted(s, 1) + Worth(s[1]) * 6;
    assert Weighted(s, 3) == Weighted(s, 2) + Worth(s[2]) * 5;
    assert Weighted(s, 4) == Weighted(s, 3) + Worth(s[3]) * 4;
    assert Weighted(s, 5) == Weighted(s, 4) + Worth(s[4]) * 3;
    assert Weighted(s, 6) == Weighted(s, 5) + Worth(s[5]) * 2;
  }

  lemma {:induction false} WeightedUpdate(s: string, i: nat, c: char, n: nat)
    requires Digits(s) && i < |s| && IsDigit(c) && n <= |s|
    ensures Digits(s[i := c])
    ensures Weighted(s[i := c], n) == Weighted(s, n) + if i < n then (Worth(c) - Worth(s[i])) * (7 - i) else 0
  {
    if 0 < n {
      WeightedUpdate(s, i, c, n - 1);
      if i == n - 1 {
        Difference(0, Worth(c), Worth(s[i]), 8 - n, 0);
      }
    }
  }

  /**
   One wrong digit in a valid IMO number goes unnoticed exactly when its weight times the error is a multiple of
   ten; an error in the check digit is always noticed.
   */
  lemma {:induction false} ImoErrorMissedIff(imo: string, i: nat, c: char)
    requires ImoOk(imo) && i < 7 && IsDigit(c) && c != imo[i]
    ensures ImoOk(imo[i := c]) <==> i < 6 && ((Worth(c) - Worth(imo[i])) * (7 - i)) % 10 == 0
  {
    WeightedUpdate(imo, i, c, 6);
    if i == 6 {
      if Worth(c) == Worth(imo[6]) {
        WorthIsInjective(c, imo[6]);
      }
    } else {
      TensModulo(Weighted(imo, 6), (Worth(c) - Worth(imo[i])) * (7 - i));
    }
  }

  lemma {:induction false} TensModulo(x: int, d: int)
    ensures (x + d) % 10 == x % 10 <==> d % 10 == 0
  {
  }
}

/** String helpers the source gets from Python's str: lower(), the `in` substring test,
    and the "{:,}" thousands-separator format. */
module Text {

  predicate IsUpper(c: char) {
    'A' <= c <= 'Z'
  }

  /** str.lower() restricted to ASCII letters. */
  function LowerChar(c: char): char {
    if IsUpper(c) then (c as int + 32) as char else c
  }

  function Lower(s: string): (r: string)
    ensures |r| == |s|
    ensures forall i :: 0 <= i < |s| ==> !IsUpper(r[i])
    ensures forall i :: 0 <= i < |s| && !IsUpper(s[i]) ==> r[i] == s[i]
    ensures forall i :: 0 <= i < |s| && IsUpper(s[i]) ==> r[i] == (s[i] as int + 32) as char
  {
    if s == [] then [] else [LowerChar(s[0])] + Lower(s[1..])
  }

  /** Python's `sub in s` for strings. */
  predicate Contains(s: string, sub: string) {
    exists i :: 0 <= i <= |s| && StartsWith(s[i..], sub)
  }

  predicate StartsWith(s: string, prefix: string) {
    |prefix| <= |s| && s[..|prefix|] == prefix
  }

  function DigitChar(d: nat): char
    requires d < 10
  {
    ('0' as int + d) as char
  }

  /** The decimal numeral of n, without separators. */
  function Decimal(n: nat): (s: string)
    ensures |s| >= 1
    ensures forall i :: 0 <= i < |s| ==> '0' <= s[i] <= '9'
  {
    if n < 10 then [DigitChar(n)] else Decimal(n / 10) + [DigitChar(n % 10)]
  }

  /** Three digits with leading zeros, for one group after a separator. */
  function Pad3(n: nat): string
    requires n < 1000
  {
    [DigitChar(n / 100), DigitChar(n / 10 % 10), DigitChar(n % 10)]
  }

  /** Python's f"{n:,}": the decimal numeral with a comma before every group of three digits from the right. */
  function GroupThousands(n: nat): string {
    if n < 1000 then Decimal(n) else GroupThousands(n / 1000) + "," + Pad3(n % 1000)
  }

  function StripCommas(s: string): string {
    if s == [] then [] else (if s[0] == ',' then [] else [s[0]]) + StripCommas(s[1..])
  }

  lemma {:induction false} StripCommasAppend(a: string, b: string)
    ensures StripCommas(a + b) == StripCommas(a) + StripCommas(b)
  {
    if a != [] {
      assert (a + b)[0] == a[0];
      assert (a + b)[1..] == a[1..] + b;
      StripCommasAppend(a[1..], b);
    } else {
      assert a + b == b;
    }
  }

  lemma {:induction false} StripCommasDecimal(n: nat)
    ensures StripCommas(Decimal(n)) == Decimal(n)
  {
    if n >= 10 {
      StripCommasDecimal(n / 10);
      StripCommasAppend(Decimal(n / 10), [DigitChar(n % 10)]);
    }
  }

  /** Division by ten is determined by a quotient and a digit. */
  lemma DivTen(n: nat, q: nat, r: nat)
    requires r < 10 && n == 10 * q + r
    ensures n / 10 == q && n % 10 == r
  {
  }

  lemma {:induction false} DecimalSplit(n: nat)
    requires n >= 1000
    ensures Decimal(n) == Decimal(n / 1000) + Pad3(n % 1000)
  {
    var a, b := n / 1000, n % 1000;
    var x, y, z := b / 100, b / 10 % 10, b % 10;
    assert b == 100 * x + 10 * y + z;
    DivTen(n, 100 * a + 10 * x + y, z);
    DivTen(n / 10, 10 * a + x, y);
    DivTen(n / 10 / 10, a, x);
    assert Pad3(b) == [DigitChar(x), DigitChar(y), DigitChar(z)];
    calc {
      Decimal(n);
      Decimal(n / 10) + [DigitChar(z)];
      Decimal(n / 10 / 10) + [DigitChar(y)] + [DigitChar(z)];
      Decimal(a) + [DigitChar(x)] + [DigitChar(y)] + [DigitChar(z)];
      Decimal(a) + Pad3(b);
    }
  }

  lemma Pad3NoCommas(b: nat)
    requires b < 1000
    ensures StripCommas(Pad3(b)) == Pad3(b)
  {
    var p := Pad3(b);
    assert p[1..][1..][1..] == [];
  }

  /** Dropping the separators from the grouped numeral gives back the plain numeral. */
  lemma {:induction false} GroupThousandsDigits(n: nat)
    ensures StripCommas(GroupThousands(n)) == Decimal(n)
  {
    if n < 1000 {
      StripCommasDecimal(n);
    } else {
      var a, b := n / 1000, n % 1000;
      var g := GroupThousands(a);
      assert GroupThousands(n) == g + "," + Pad3(b);
      GroupThousandsDigits(a);
      StripCommasAppend(g + ",", Pad3(b));
      StripCommasAppend(g, ",");
      assert StripCommas(",") == [];
      Pad3NoCommas(b);
      DecimalSplit(n);
    }
  }

  /** Numbers below one thousand carry no separator. */
  lemma GroupThousandsSmall(n: nat)
    requires n < 1000
    ensures forall i :: 0 <= i < |GroupThousands(n)| ==> GroupThousands(n)[i] != ','
  {
  }
}

// Numbers as decimal text: printed with leading zeros, and read back.

module Decimals {
  import opened Prelude

  predicate IsDigit(c: char) {
    '0' <= c <= '9'
  }

  function Digit(n: nat): (c: char)
    requires n < 10
  {
    '0' + n as char
  }

  function DigitValue(c: char): (n: nat)
    requires IsDigit(c)
    ensures n < 10
  {
    c as int - '0' as int
  }

  function Decimal(n: nat): (s: string) {
    if n < 10 then [Digit(n)] else Decimal(n / 10) + [Digit(n % 10)]
  }

  function Zeros(k: nat): (s: string) {
    if k == 0 then [] else Zeros(k - 1) + ['0']
  }

  function Padded(n: nat, width: nat): (s: string) {
    var s := Decimal(n);
    if |s| >= width then s else Zeros(width - |s|) + s
  }

  predicate AllDigits(s: string) {
    forall c :: c in s ==> IsDigit(c)
  }

  function ValueOf(s: string): (n: nat)
    requires AllDigits(s)
  {
    if s == [] then 0 else 10 * ValueOf(s[..|s| - 1]) + DigitValue(s[|s| - 1])
  }

  /** Reads an optional sign and at least one digit, and nothing else. */
  function ParseInt(s: string): (r: Option<int>) {
    var signed := s != [] && (s[0] == '+' || s[0] == '-');
    var digits := if signed then s[1..] else s;
    if digits == [] || !AllDigits(digits) then None
    else
      var value: int := ValueOf(digits);
      Some(if signed && s[0] == '-' then -value else value)
  }

  lemma {:induction false} DecimalReads(n: nat)
    ensures AllDigits(Decimal(n)) && ValueOf(Decimal(n)) == n && Decimal(n) != []
  {
    if n >= 10 {
      DecimalReads(n / 10);
      var s := Decimal(n);
      assert s[..|s| - 1] == Decimal(n / 10);
    }
  }

  lemma {:induction false} ZerosRead(k: nat, s: string)
    requires AllDigits(s)
    ensures |Zeros(k)| == k && AllDigits(Zeros(k) + s) && ValueOf(Zeros(k) + s) == ValueOf(s)
    decreases |s|, k
  {
    if s == [] {
      assert Zeros(k) + s == Zeros(k);
      if k > 0 {
        ZerosRead(k - 1, []);
        assert Zeros(k - 1) + [] == Zeros(k - 1);
        assert Zeros(k)[..k - 1] == Zeros(k - 1);
      }
    } else {
      var shorter := s[..|s| - 1];
      ZerosRead(k, shorter);
      assert (Zeros(k) + s)[..|Zeros(k) + s| - 1] == Zeros(k) + shorter;
      assert forall c :: c in Zeros(k) ==> c in Zeros(k) + shorter;
    }
  }

  lemma {:induction false} DecimalWidth(n: nat)
    ensures n < 10 ==> |Decimal(n)| == 1
    ensures 10 <= n < 100 ==> |Decimal(n)| == 2
    ensures 100 <= n < 1000 ==> |Decimal(n)| == 3
    ensures 1000 <= n < 10000 ==> |Decimal(n)| == 4
    ensures 10000 <= n < 100000 ==> |Decimal(n)| == 5
    ensures 100000 <= n < 1000000 ==> |Decimal(n)| == 6
    ensures n >= 1000000 ==> |Decimal(n)| >= 7
  {
    if n >= 10 {
      DecimalWidth(n / 10);
    }
  }

  lemma PaddedReads(n: nat, width: nat)
    ensures AllDigits(Padded(n, width)) && ValueOf(Padded(n, width)) == n
    ensures |Padded(n, width)| == if |Decimal(n)| >= width then |Decimal(n)| else width
    ensures Padded(n, width) != []
  {
    var s := Decimal(n);
    DecimalReads(n);
    if |s| < width {
      ZerosRead(width - |s|, s);
      assert Padded(n, width) == Zeros(width - |s|) + s;
    } else {
      assert Padded(n, width) == s;
    }
  }
}

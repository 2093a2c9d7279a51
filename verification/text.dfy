/** String helpers the service relies on: ASCII lower-casing (strings.ToLower
    on the addresses the service sees) and the "%04d" rendering of a control id. */
module Text {

  /** Lower-cases one character; only 'A'..'Z' change. */
  function LowerChar(c: char): (r: char)
    ensures 'A' <= c <= 'Z' ==> r as int == c as int + 32
    ensures !('A' <= c <= 'Z') ==> r == c
    ensures !('A' <= r <= 'Z')
  {
    if 'A' <= c <= 'Z' then (c as int + 32) as char else c
  }

  function ToLower(s: string): (r: string)
    ensures |r| == |s|
    ensures forall i :: 0 <= i < |s| ==> r[i] == LowerChar(s[i])
  {
    if s == [] then [] else [LowerChar(s[0])] + ToLower(s[1..])
  }

  /** Two strings that differ only in the case of their letters. */
  predicate EqualFold(a: string, b: string)
  {
    |a| == |b| && forall i :: 0 <= i < |a| ==> LowerChar(a[i]) == LowerChar(b[i])
  }

  /** Addresses that differ only in case are folded to the same key. */
  lemma EqualFoldSameKey(a: string, b: string)
    requires EqualFold(a, b)
    ensures ToLower(a) == ToLower(b)
  {
    assert forall i :: 0 <= i < |a| ==> ToLower(a)[i] == ToLower(b)[i];
  }

  /** Lower-casing is idempotent: a key is already its own key. */
  lemma {:induction false} ToLowerIdempotent(s: string)
    ensures ToLower(ToLower(s)) == ToLower(s)
  {
    if s != [] {
      ToLowerIdempotent(s[1..]);
      assert ToLower(s)[1..] == ToLower(s[1..]);
    }
  }

  // ---------------------------------------------------------------------
  // Decimal rendering, as fmt's "%04d" does it

  predicate IsDigit(c: char) { '0' <= c <= '9' }

  predicate AllDigits(s: string) { forall i :: 0 <= i < |s| ==> IsDigit(s[i]) }

  function DigitChar(d: nat): (c: char)
    requires d < 10
    ensures IsDigit(c) && c as int - '0' as int == d
  {
    ('0' as int + d) as char
  }

  /** The decimal digits of n, without leading zeros ("0" for zero). */
  function Digits(n: nat): (s: string)
    ensures |s| >= 1 && AllDigits(s)
    decreases n
  {
    if n < 10 then [DigitChar(n)] else Digits(n / 10) + [DigitChar(n % 10)]
  }

  function Zeros(k: nat): (s: string)
    ensures |s| == k && forall i :: 0 <= i < k ==> s[i] == '0'
  {
    if k == 0 then [] else ['0'] + Zeros(k - 1)
  }

  /** Left-pads with '0' up to the given width. */
  function ZeroPad(s: string, width: nat): (r: string)
    ensures |r| == if |s| >= width then |s| else width
  {
    if |s| >= width then s else Zeros(width - |s|) + s
  }

  /** fmt.Sprintf("%04d", cid): width 4 counting the sign, zeros after the sign. */
  function FormatCid(cid: int): (r: string)
    ensures |r| >= 4
    ensures cid >= 0 ==> AllDigits(r)
    ensures cid < 0 ==> r[0] == '-' && AllDigits(r[1..])
  {
    if cid >= 0 then ZeroPad(Digits(cid), 4) else "-" + ZeroPad(Digits(-cid), 3)
  }

  /** The number a string of decimal digits denotes (leading zeros allowed). */
  function DecimalValue(s: string): nat
    requires AllDigits(s)
  {
    if s == [] then 0
    else DecimalValue(s[..|s| - 1]) * 10 + (s[|s| - 1] as int - '0' as int)
  }

  lemma {:induction false} DigitsValue(n: nat)
    ensures DecimalValue(Digits(n)) == n
    decreases n
  {
    if n >= 10 {
      DigitsValue(n / 10);
      var s := Digits(n);
      assert s[..|s| - 1] == Digits(n / 10);
    }
  }

  lemma {:induction false} LeadingZerosValue(k: nat, s: string)
    requires AllDigits(s)
    ensures AllDigits(Zeros(k) + s) && DecimalValue(Zeros(k) + s) == DecimalValue(s)
    decreases |s|
  {
    var z := Zeros(k) + s;
    if s == [] {
      assert z == Zeros(k);
      ZerosValue(k);
    } else {
      LeadingZerosValue(k, s[..|s| - 1]);
      assert z[..|z| - 1] == Zeros(k) + s[..|s| - 1];
    }
  }

  lemma {:induction false} ZerosValue(k: nat)
    ensures AllDigits(Zeros(k)) && DecimalValue(Zeros(k)) == 0
  {
    if k > 0 {
      ZerosValue(k - 1);
      var z := Zeros(k);
      assert z[..|z| - 1] == Zeros(k - 1) by {
        assert forall i :: 0 <= i < k - 1 ==> z[i] == '0';
      }
    }
  }

  /** The rendered control id reads back as the control id: the padding
      loses nothing for a non-negative id. */
  lemma FormatCidRoundTrip(cid: int)
    requires cid >= 0
    ensures AllDigits(FormatCid(cid)) && DecimalValue(FormatCid(cid)) == cid
    ensures |FormatCid(cid)| == if cid < 10000 then 4 else |Digits(cid)|
  {
    var d := Digits(cid);
    DigitsValue(cid);
    if |d| < 4 {
      LeadingZerosValue(4 - |d|, d);
    }
    if cid >= 10000 {
      DigitsLong(cid);
    } else {
      DigitsShort(cid);
    }
  }

  lemma {:induction false} DigitsLong(n: nat)
    requires n >= 10000
    ensures |Digits(n)| >= 5
  {
    DigitsShortBound(n / 10);
  }

  lemma {:induction false} DigitsShortBound(n: nat)
    requires n >= 1000
    ensures |Digits(n)| >= 4
  {
    assert Digits(n) == Digits(n / 10) + [DigitChar(n % 10)];
    assert Digits(n / 10) == Digits(n / 100) + [DigitChar(n / 10 % 10)];
    assert Digits(n / 100) == Digits(n / 1000) + [DigitChar(n / 100 % 10)];
  }

  lemma {:induction false} DigitsShort(n: nat)
    requires n < 10000
    ensures |Digits(n)| <= 4
  {
    if n >= 10 {
      DigitsShort3(n / 10);
    }
  }

  lemma {:induction false} DigitsShort3(n: nat)
    requires n < 1000
    ensures |Digits(n)| <= 3
  {
    if n >= 10 {
      assert |Digits(n / 10)| <= 2 by {
        if n / 10 >= 10 {
          assert n / 100 < 10;
        }
      }
    }
  }
}

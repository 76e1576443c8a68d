/** Demand identifiers: "DMD-" followed by a sequence number printed in
    decimal and zero-padded to at least four digits (Python's `{n:04d}`). */
module DemandIds {

  import opened Domain

  const Prefix: string := "DMD-"
  const Width: nat := 4

  predicate IsDigit(c: char)
  {
    '0' <= c <= '9'
  }

  function DigitChar(d: nat): (c: char)
    requires d < 10
    ensures IsDigit(c)
  {
    ('0' as int + d) as char
  }

  /** The decimal digits of `n`, most significant first, without leading zeros. */
  function Decimal(n: nat): (s: string)
    ensures 1 <= |s|
    ensures forall i :: 0 <= i < |s| ==> IsDigit(s[i])
  {
    if n < 10 then [DigitChar(n)] else Decimal(n / 10) + [DigitChar(n % 10)]
  }

  function Zeros(k: nat): (z: string)
    ensures |z| == k
  {
    seq(k, _ => '0')
  }

  /** `s` left-padded with '0' up to `width` characters; longer strings are kept whole. */
  function ZeroPad(s: string, width: nat): (r: string)
    ensures |r| == if |s| < width then width else |s|
  {
    if |s| < width then Zeros(width - |s|) + s else s
  }

  /** The id the server gives to its `n`-th demand. */
  function FormatId(n: nat): (id: string)
    ensures |id| >= |Prefix| + Width && id[..|Prefix|] == Prefix
  {
    Prefix + ZeroPad(Decimal(n), Width)
  }

  /** The number a string of digits denotes (leading zeros allowed). */
  function DecimalValue(s: string): nat
    requires forall i :: 0 <= i < |s| ==> IsDigit(s[i])
  {
    if s == [] then 0
    else
      assert IsDigit(s[|s| - 1]);
      DecimalValue(s[..|s| - 1]) * 10 + (s[|s| - 1] as int - '0' as int)
  }

  /** Reads the sequence number back out of an id, if it has the server's shape. */
  function ParseId(id: string): Option<nat>
  {
    if |id| > |Prefix| && id[..|Prefix|] == Prefix
       && forall i :: |Prefix| <= i < |id| ==> IsDigit(id[i])
    then Some(DecimalValue(id[|Prefix|..]))
    else None
  }

  lemma {:induction false} DecimalRoundTrip(n: nat)
    ensures DecimalValue(Decimal(n)) == n
  {
    if n >= 10 {
      var s := Decimal(n);
      assert s[..|s| - 1] == Decimal(n / 10);
      DecimalRoundTrip(n / 10);
    }
  }

  lemma {:induction false} LeadingZerosIgnored(k: nat, s: string)
    requires forall i :: 0 <= i < |s| ==> IsDigit(s[i])
    ensures forall i :: 0 <= i < |Zeros(k) + s| ==> IsDigit((Zeros(k) + s)[i])
    ensures DecimalValue(Zeros(k) + s) == DecimalValue(s)
    decreases |s| + k
  {
    var t := Zeros(k) + s;
    assert forall i :: 0 <= i < |t| ==> IsDigit(t[i]) by {
      forall i | 0 <= i < |t| ensures IsDigit(t[i]) {
        if i < k { assert t[i] == '0'; } else { assert t[i] == s[i - k]; }
      }
    }
    if s == [] {
      if k > 0 {
        assert t[..|t| - 1] == Zeros(k - 1) + [];
        LeadingZerosIgnored(k - 1, []);
      }
    } else {
      var s' := s[..|s| - 1];
      assert t[..|t| - 1] == Zeros(k) + s';
      assert t[|t| - 1] == s[|s| - 1];
      LeadingZerosIgnored(k, s');
    }
  }

  /** Every well-formed id reads back as the number it was printed from. */
  lemma {:induction false} ParseFormatRoundTrip(n: nat)
    ensures ParseId(FormatId(n)) == Some(n)
  {
    var d := Decimal(n);
    var id := FormatId(n);
    var digits := ZeroPad(d, Width);
    assert id[..|Prefix|] == Prefix && id[|Prefix|..] == digits;
    if |d| < Width {
      LeadingZerosIgnored(Width - |d|, d);
    }
    assert forall i :: |Prefix| <= i < |id| ==> IsDigit(id[i]) by {
      forall i | |Prefix| <= i < |id| ensures IsDigit(id[i]) {
        assert id[i] == digits[i - |Prefix|];
      }
    }
    DecimalRoundTrip(n);
  }

  /** Distinct sequence numbers give distinct ids, and vice versa. */
  lemma {:induction false} FormatIdInjective(m: nat, n: nat)
    ensures FormatId(m) == FormatId(n) <==> m == n
  {
    ParseFormatRoundTrip(m);
    ParseFormatRoundTrip(n);
  }

  /** The shape the server's ids take: the prefix, then at least four digits. */
  lemma {:induction false} FormatIdShape(n: nat)
    ensures |FormatId(n)| >= |Prefix| + Width
    ensures FormatId(n)[..|Prefix|] == Prefix
    ensures forall i :: |Prefix| <= i < |FormatId(n)| ==> IsDigit(FormatId(n)[i])
  {
    ParseFormatRoundTrip(n);
  }
}

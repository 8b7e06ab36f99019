/** The human-facing identifiers the store generates: default tracking codes
    (`HM-2025-` and the id padded to five digits) and flight numbers (`HM` and a
    three-digit number). */
module Codes {

  import opened Records
  import opened Text

  const TrackingPrefix: string := "HM-2025-"

  /** The default tracking code of the shipment with id `id`: the prefix, then
      max(5, the number of digits of `id`) digits that read back as `id`. */
  function TrackingCode(id: nat): (r: string)
    ensures |r| >= |TrackingPrefix| + 5
    ensures |r| == |TrackingPrefix| + (if |NatToString(id)| < 5 then 5 else |NatToString(id)|)
    ensures r[..|TrackingPrefix|] == TrackingPrefix
    ensures AllDigits(r[|TrackingPrefix|..]) && ParseDigits(r[|TrackingPrefix|..]) == id
  {
    var digits := NatToString(id);
    var padded := PadStart(digits, 5, '0');
    ParseNatToString(id);
    if |digits| < 5 then
      assert padded == Repeat('0', 5 - |digits|) + digits;
      ParseLeadingZeros(5 - |digits|, digits);
      assert (TrackingPrefix + padded)[|TrackingPrefix|..] == padded;
      TrackingPrefix + padded
    else
      assert (TrackingPrefix + padded)[|TrackingPrefix|..] == padded;
      TrackingPrefix + padded
  }

  /** Reads the id back out of a tracking code of the generated shape. */
  function ParseTracking(code: string): Option<nat>
  {
    if |code| > |TrackingPrefix| && code[..|TrackingPrefix|] == TrackingPrefix && AllDigits(code[|TrackingPrefix|..])
    then Some(ParseDigits(code[|TrackingPrefix|..]))
    else None
  }

  /** Every generated code is the prefix followed by at least five digits, and
      decodes to the id it was made from. */
  lemma TrackingCodeRoundTrip(id: nat)
    ensures TrackingCode(id)[..|TrackingPrefix|] == TrackingPrefix
    ensures |TrackingCode(id)| >= |TrackingPrefix| + 5
    ensures ParseTracking(TrackingCode(id)) == Some(id)
  {
  }

  /** Distinct ids get distinct default tracking codes. */
  lemma TrackingCodeInjective(m: nat, n: nat)
    requires TrackingCode(m) == TrackingCode(n)
    ensures m == n
  {
    TrackingCodeRoundTrip(m);
    TrackingCodeRoundTrip(n);
  }

  function Pow10(k: nat): (r: nat)
    ensures r >= 1
  {
    if k == 0 then 1 else 10 * Pow10(k - 1)
  }

  lemma {:induction false} NatToStringLength(n: nat, k: nat)
    requires 1 <= k && n < Pow10(k)
    ensures |NatToString(n)| <= k
  {
    if n >= 10 {
      assert k >= 2;
      NatToStringLength(n / 10, k - 1);
    }
  }

  /** Ids below 100000 give codes of exactly thirteen characters. */
  lemma TrackingCodeLength(id: nat)
    requires id < 100000
    ensures |TrackingCode(id)| == 13
  {
    assert Pow10(5) == 100000;
    NatToStringLength(id, 5);
  }

  lemma TrackingCodeExample()
    ensures TrackingCode(4) == "HM-2025-00004"
  {
    assert NatToString(4) == "4";
    assert Repeat('0', 4) == "0000";
  }

  /** The flight number made from the random draw `n`: `HM`, then the decimal
      text of `n`. */
  function FlightNumber(n: int): (r: string)
    ensures |r| >= 3 && r[..2] == "HM"
    ensures n >= 0 ==> AllDigits(r[2..]) && ParseDigits(r[2..]) == n
  {
    assert ("HM" + IntToString(n))[2..] == IntToString(n);
    "HM" + IntToString(n)
  }

  /** For a draw in [100, 999] the flight number is `HM` and exactly the three
      digits of the draw. */
  lemma FlightNumberShape(n: int)
    requires 100 <= n <= 999
    ensures |FlightNumber(n)| == 5 && FlightNumber(n)[..2] == "HM"
    ensures AllDigits(FlightNumber(n)[2..]) && ParseDigits(FlightNumber(n)[2..]) == n
  {
    assert Pow10(3) == 1000;
    NatToStringLength(n, 3);
    assert n >= 100 ==> |NatToString(n)| >= 3 by {
      assert NatToString(n) == NatToString(n / 10) + [DigitChar(n % 10)];
      assert NatToString(n / 10) == NatToString(n / 100) + [DigitChar(n / 10 % 10)];
    }
    assert FlightNumber(n)[2..] == NatToString(n);
    ParseNatToString(n);
  }
}

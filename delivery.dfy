/**
 * Distance-tiered delivery pricing, the delivery radius and the ZIP code
 * format (src/lib/utils/delivery.ts). All of it is pure arithmetic and
 * string matching; the configured amounts come from environment variables,
 * which here are parameters with the source's fallback values as constants.
 */
module Delivery {
  import opened Wrappers

  /** Fallbacks of NEXT_PUBLIC_BASE_DELIVERY_FEE, NEXT_PUBLIC_PER_MILE_FEE and NEXT_PUBLIC_MAX_DELIVERY_RADIUS_MILES. */
  const DefaultBaseFee: real := 15.0
  const DefaultPerMileFee: real := 2.0
  const DefaultMaxRadius: real := 50.0

  /** The distance, in miles, that the base fee covers. */
  const IncludedMiles: real := 10.0

  /**
   * `calculateDeliveryFee`: the base fee up to ten miles, then the per-mile
   * rate for every mile (or fraction of one) beyond.
   */
  function DeliveryFee(baseFee: real, perMileFee: real, miles: real): (fee: real)
    ensures miles <= IncludedMiles ==> fee == baseFee
    ensures perMileFee >= 0.0 ==> fee >= baseFee
    ensures miles > IncludedMiles && perMileFee > 0.0 ==> fee > baseFee
  {
    if miles <= IncludedMiles then baseFee
    else baseFee + (miles - IncludedMiles) * perMileFee
  }

  /** With a non-negative rate the fee never falls as the distance grows. */
  lemma DeliveryFeeMonotone(baseFee: real, perMileFee: real, near: real, far: real)
    requires perMileFee >= 0.0 && near <= far
    ensures DeliveryFee(baseFee, perMileFee, near) <= DeliveryFee(baseFee, perMileFee, far)
  {
    if near > IncludedMiles {
      assert (far - IncludedMiles) * perMileFee - (near - IncludedMiles) * perMileFee
          == (far - near) * perMileFee;
      assert (far - near) * perMileFee >= 0.0;
    }
  }

  /**
   * The fee moves by at most the per-mile rate times the change in distance,
   * so it has no jump at ten miles (or anywhere else).
   */
  lemma DeliveryFeeLipschitz(baseFee: real, perMileFee: real, near: real, far: real)
    requires perMileFee >= 0.0 && near <= far
    ensures DeliveryFee(baseFee, perMileFee, far) - DeliveryFee(baseFee, perMileFee, near)
         <= (far - near) * perMileFee
  {
    if near > IncludedMiles {
      assert (far - IncludedMiles) * perMileFee - (near - IncludedMiles) * perMileFee
          == (far - near) * perMileFee;
    } else if far > IncludedMiles {
      assert (far - IncludedMiles) * perMileFee <= (far - near) * perMileFee;
    }
  }

  /** The values pinned by the delivery tests, with the default configuration. */
  lemma DeliveryFeeExamples()
    ensures DeliveryFee(DefaultBaseFee, DefaultPerMileFee, 5.0) == 15.0
    ensures DeliveryFee(DefaultBaseFee, DefaultPerMileFee, 10.0) == 15.0
    ensures DeliveryFee(DefaultBaseFee, DefaultPerMileFee, 15.0) == 25.0
    ensures DeliveryFee(DefaultBaseFee, DefaultPerMileFee, 20.0) == 35.0
    ensures DeliveryFee(DefaultBaseFee, DefaultPerMileFee, 12.5) == 20.0
  {
  }

  /** `isDeliveryAvailable`: within the maximum radius, the boundary included. */
  predicate IsDeliveryAvailable(miles: real, maxRadius: real) {
    miles <= maxRadius
  }

  /** Availability is closed under moving closer. */
  lemma AvailableCloser(near: real, far: real, maxRadius: real)
    requires near <= far && IsDeliveryAvailable(far, maxRadius)
    ensures IsDeliveryAvailable(near, maxRadius)
  {
  }

  /** The values pinned by the delivery tests, with the default radius. */
  lemma AvailabilityExamples()
    ensures IsDeliveryAvailable(0.0, DefaultMaxRadius)
    ensures IsDeliveryAvailable(25.0, DefaultMaxRadius)
    ensures IsDeliveryAvailable(50.0, DefaultMaxRadius)
    ensures !IsDeliveryAvailable(51.0, DefaultMaxRadius)
    ensures !IsDeliveryAvailable(100.0, DefaultMaxRadius)
  {
  }

  // ---------- ZIP codes: the regular expression ^\d{5}(-\d{4})?$ ----------

  /** `\d` in a JavaScript regular expression: an ASCII digit. */
  predicate IsDigit(c: char) {
    '0' <= c <= '9'
  }

  predicate AllDigits(s: string) {
    forall k :: 0 <= k < |s| ==> IsDigit(s[k])
  }

  /** The two shapes the pattern admits, in plain words: five digits, or five digits, a hyphen and four digits. */
  ghost predicate ZipShape(s: string) {
    || (|s| == 5 && AllDigits(s))
    || (|s| == 10 && AllDigits(s[..5]) && s[5] == '-' && AllDigits(s[6..]))
  }

  /**
   * The automaton for the pattern. States 0..5 count the digits of the first
   * group, state 6 follows the hyphen and 6..10 count the digits after it;
   * 5 and 10 accept.
   */
  function ZipStep(state: nat, c: char): Option<nat> {
    if state < 5 && IsDigit(c) then Some(state + 1)
    else if state == 5 && c == '-' then Some(6)
    else if 6 <= state < 10 && IsDigit(c) then Some(state + 1)
    else None
  }

  function ZipRun(state: nat, s: string): bool
    decreases |s|
  {
    if s == [] then state == 5 || state == 10
    else match ZipStep(state, s[0])
      case None => false
      case Some(next) => ZipRun(next, s[1..])
  }

  /** After the hyphen, the automaton accepts exactly the remaining digits. */
  lemma {:induction false} ZipRunAfterHyphen(state: nat, s: string)
    requires 6 <= state <= 10
    ensures ZipRun(state, s) <==> |s| == 10 - state && AllDigits(s)
    decreases |s|
  {
    if s != [] {
      if state < 10 && IsDigit(s[0]) {
        ZipRunAfterHyphen(state + 1, s[1..]);
        assert AllDigits(s) <==> AllDigits(s[1..]);
      }
    }
  }

  /** Before the hyphen, the automaton accepts what remains of either shape. */
  lemma {:induction false} ZipRunBeforeHyphen(state: nat, s: string)
    requires state <= 5
    ensures ZipRun(state, s) <==>
      || (|s| == 5 - state && AllDigits(s))
      || (|s| == 10 - state && AllDigits(s[..5 - state]) && s[5 - state] == '-' && AllDigits(s[6 - state..]))
    decreases |s|
  {
    if s == [] {
    } else if state < 5 {
      if IsDigit(s[0]) {
        ZipRunBeforeHyphen(state + 1, s[1..]);
        assert AllDigits(s) <==> AllDigits(s[1..]);
        if |s| == 10 - state {
          assert s[1..][..5 - (state + 1)] == s[1..5 - state];
          assert AllDigits(s[..5 - state]) <==> AllDigits(s[1..5 - state]);
          assert s[1..][6 - (state + 1)..] == s[6 - state..];
        }
      } else {
        assert !AllDigits(s);
        assert |s| == 10 - state ==> !AllDigits(s[..5 - state]);
      }
    } else {
      if s[0] == '-' {
        ZipRunAfterHyphen(6, s[1..]);
        assert s[..0] == [];
      }
    }
  }

  /** `isValidZipCode`: the pattern test, run by its automaton. */
  function IsValidZipCode(s: string): (ok: bool)
    ensures ok <==> ZipShape(s)
    ensures ok ==> |s| == 5 || |s| == 10
  {
    ZipRunBeforeHyphen(0, s);
    ZipRun(0, s)
  }

  lemma ZipExamples()
    ensures IsValidZipCode("12345")
    ensures IsValidZipCode("12345-6789")
    ensures !IsValidZipCode("1234")
    ensures !IsValidZipCode("12345-")
    ensures !IsValidZipCode("12345 6789")
  {
    assert !ZipShape("12345 6789") by { assert "12345 6789"[5] == ' '; }
    assert ZipShape("12345-6789") by {
      assert "12345-6789"[..5] == "12345";
      assert "12345-6789"[6..] == "6789";
    }
  }
}

/** The fixed-point arithmetic of BBR: no overflow in the range it is meant for, and how far its
    results are from the exact ones. */
module BbrArith {
  import opened Bbr

  // ----- Pacing rates -----

  /** Every intermediate of the conversion fits 64 bits. */
  ghost predicate RateFits(mtu: nat, rate: nat, gain: nat) {
    && rate * mtu < TWO64
    && rate * mtu * gain < TWO64
    && rate * mtu * gain / BBR_UNIT * USEC_PER_SEC < TWO64
  }

  /** With MTU 1500 and the largest gain the conversion overflows exactly above this rate, about
      3.05 Tbit/s. */
  const RATE_LIMIT: nat := 4260141166

  lemma RateFitsIff(rate: nat)
    ensures RateFits(1500, rate, HIGH_GAIN) <==> rate <= RATE_LIMIT
  {
    assert HIGH_GAIN == 739;
    ScaledBelow(rate * 1108500);
    assert rate * 1500 * HIGH_GAIN == rate * 1108500;
  }

  lemma ScaledBelow(x: nat)
    ensures x / BBR_UNIT * USEC_PER_SEC < TWO64 <==> x < 18446744073710 * BBR_UNIT
  {
    assert x / BBR_UNIT < 18446744073710 <==> x < 18446744073710 * BBR_UNIT;
  }

  /** Up to 2.9 Tbit/s nothing overflows, with any gain BBR uses. */
  lemma RateSafeUpTo(rate: nat, gain: nat)
    requires gain <= HIGH_GAIN
    requires rate * (1500 * 8 * USEC_PER_SEC) <= 2900000000000 * BW_UNIT
    ensures RateFits(1500, rate, gain)
  {
    RateFitsIff(rate);
    MulMonotone(rate * 1500, gain, rate * 1500, HIGH_GAIN);
    DivMonotone(rate * 1500 * gain, rate * 1500 * HIGH_GAIN);
  }

  lemma MulMonotone(a: nat, b: nat, c: nat, d: nat)
    requires a <= c && b <= d
    ensures a * b <= c * d
  {
    assert a * b <= c * b;
    assert c * b <= c * d;
  }

  lemma DivMonotone(x: nat, y: nat)
    requires x <= y
    ensures x / BBR_UNIT * USEC_PER_SEC <= y / BBR_UNIT * USEC_PER_SEC
  {
  }

  /** The result is the exact rate rounded down, or one byte per second less. */
  lemma RateAccuracy(mtu: nat, rate: nat, gain: nat)
    requires RateFits(mtu, rate, gain)
    ensures var r := RateBytesPerSec(mtu, rate, gain);
            r * TWO32 <= rate * mtu * gain * USEC_PER_SEC < (r + 2) * TWO32
  {
    var x := rate * mtu * gain;
    Exact64(rate * mtu);
    Exact64(x);
    Exact64(x / BBR_UNIT * USEC_PER_SEC);
    hide U64;
    assert RateBytesPerSec(mtu, rate, gain) == x / BBR_UNIT * USEC_PER_SEC / BW_UNIT;
    ScaleTwice(x);
  }

  lemma Exact64(x: nat)
    requires x < TWO64
    ensures U64(x) == x
  {
  }

  lemma Exact32(x: nat)
    requires x < TWO32
    ensures U32(x) == x
  {
  }

  lemma ScaleTwice(x: nat)
    ensures var r := x / BBR_UNIT * USEC_PER_SEC / BW_UNIT;
            r * TWO32 <= x * USEC_PER_SEC < (r + 2) * TWO32
  {
    var y := x / BBR_UNIT * USEC_PER_SEC;
    var r := y / BW_UNIT;
    assert y == r * BW_UNIT + y % BW_UNIT;
    assert x == x / BBR_UNIT * BBR_UNIT + x % BBR_UNIT;
    assert x * USEC_PER_SEC == y * BBR_UNIT + x % BBR_UNIT * USEC_PER_SEC;
  }

  // ----- Target window -----

  function CeilDiv(x: nat, d: nat): nat
    requires d > 0
  {
    (x + d - 1) / d
  }

  /** bw * min_rtt * gain, in units of 2^-32 packets. */
  function ScaledBdp(minRtt: nat, bw: nat, gain: nat): nat { bw * minRtt * gain }

  /** Nothing overflows on the way to the target. */
  ghost predicate TargetFits(minRtt: nat, tsoGoal: nat, bw: nat, gain: nat) {
    && minRtt != NO_RTT
    && bw * minRtt < TWO64 && ScaledBdp(minRtt, bw, gain) < TWO64
    && BdpPart(ScaledBdp(minRtt, bw, gain)) + 3 * tsoGoal + 1 < TWO32
  }

  lemma TargetIsEven(minRtt: nat, tsoGoal: nat, bw: nat, gain: nat)
    ensures TargetCwnd(minRtt, tsoGoal, bw, gain) % 2 == 0
  {
    hide U32, U64, BdpPart;
    if minRtt != NO_RTT {
      WithRoomEven(U32(BdpPart(U64(U64(bw * minRtt) * gain))), tsoGoal);
    }
  }

  /** Without an RTT sample the target is the initial window of TCP, whatever the estimate. */
  lemma NoSampleTarget(tsoGoal: nat, bw: nat, gain: nat)
    ensures TargetCwnd(0xFFFF_FFFF, tsoGoal, bw, gain) == 10
  {
  }

  lemma WithRoomEven(bdp: nat, tsoGoal: nat)
    ensures WithRoom(bdp, tsoGoal) % 2 == 0
  {
  }

  lemma WithRoomExact(bdp: nat, tsoGoal: nat)
    requires bdp + 3 * tsoGoal + 1 < TWO32
    ensures var exact := bdp + 3 * tsoGoal;
            WithRoom(U32(bdp), tsoGoal) == exact + exact % 2
  {
    Exact32(bdp);
    Exact32(bdp + 3 * tsoGoal);
    Exact32(bdp + 3 * tsoGoal + 1);
    hide U32;
  }

  /** The target is the path's part and the room for the end hosts, rounded up to an even number. */
  lemma TargetExact(minRtt: nat, tsoGoal: nat, bw: nat, gain: nat)
    requires TargetFits(minRtt, tsoGoal, bw, gain)
    ensures var exact := BdpPart(ScaledBdp(minRtt, bw, gain)) + 3 * tsoGoal;
            TargetCwnd(minRtt, tsoGoal, bw, gain) == exact + exact % 2
  {
    Exact64(bw * minRtt);
    Exact64(bw * minRtt * gain);
    hide U32, U64, BdpPart, WithRoom;
    WithRoomExact(BdpPart(bw * minRtt * gain), tsoGoal);
  }

  /** The path's part is the exact ceiling, or one packet less when the exact value exceeds an integer
      by less than 2^-24 packets. */
  lemma BdpAccuracy(x: nat)
    ensures BdpPart(x) == CeilDiv(x, TWO32) - if 0 < x % TWO32 < BBR_UNIT then 1 else 0
  {
    var k, m := x / TWO32, x % TWO32;
    assert x == k * TWO32 + m;
    assert x / BBR_UNIT == k * BW_UNIT + m / BBR_UNIT;
    assert CeilDiv(x, TWO32) == k + if m == 0 then 0 else 1;
    assert BdpPart(x) == k + if m / BBR_UNIT == 0 then 0 else 1;
  }

  /** The target grows with the bandwidth, the round-trip time and the gain. */
  lemma TargetMonotone(tsoGoal: nat, minRtt1: nat, bw1: nat, gain1: nat, minRtt2: nat, bw2: nat, gain2: nat)
    requires minRtt1 <= minRtt2 && bw1 <= bw2 && gain1 <= gain2
    requires TargetFits(minRtt2, tsoGoal, bw2, gain2) && minRtt1 != NO_RTT
    ensures TargetCwnd(minRtt1, tsoGoal, bw1, gain1) <= TargetCwnd(minRtt2, tsoGoal, bw2, gain2)
  {
    var x1, x2 := ScaledBdp(minRtt1, bw1, gain1), ScaledBdp(minRtt2, bw2, gain2);
    MulMonotone(bw1, minRtt1, bw2, minRtt2);
    MulMonotone(bw1 * minRtt1, gain1, bw2 * minRtt2, gain2);
    BdpMonotone(x1, x2);
    hide TargetCwnd, BdpPart, ScaledBdp;
    TargetExact(minRtt1, tsoGoal, bw1, gain1);
    TargetExact(minRtt2, tsoGoal, bw2, gain2);
  }

  lemma BdpMonotone(x: nat, y: nat)
    requires x <= y
    ensures BdpPart(x) <= BdpPart(y)
  {
  }
}

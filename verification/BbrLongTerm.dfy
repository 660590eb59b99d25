/** When two sampling intervals count as having the same rate: what the test means, and how fast a path
    may be for 32-bit arithmetic to decide it correctly. */
module BbrLongTerm {
  import opened Bbr
  import opened BbrArith

  /** A rate in bytes per second. */
  function ByteRate(mtu: nat, rate: nat): nat { rate * mtu * USEC_PER_SEC / BW_UNIT }

  /** What is asked: the rates differ by at most an eighth of the earlier one, or by at most 4 kbit/s. */
  predicate Close(ltBw: nat, mtu: nat, bw: nat) {
    var diff := Abs(bw - ltBw);
    8 * diff <= ltBw || ByteRate(mtu, diff) <= LT_BW_DIFF
  }

  /** One packet per microsecond, 12 Gbit/s with MTU 1500. */
  const SAFE_RATE: nat := BW_UNIT

  lemma SmallDifference(x: nat, y: nat)
    requires x < SAFE_RATE && y < SAFE_RATE
    ensures S32(U32(x - y)) == x - y
  {
  }

  lemma SmallRate(mtu: nat, diff: nat)
    requires mtu < 0x1_0000 && diff < SAFE_RATE
    ensures RateBytesPerSec(mtu, diff, BBR_UNIT) == ByteRate(mtu, diff)
  {
    MulMonotone(diff, mtu, SAFE_RATE, 0x1_0000);
    var x := diff * mtu;
    Exact64(x);
    Exact64(x * BBR_UNIT);
    assert x * BBR_UNIT / BBR_UNIT == x;
    Exact64(x * USEC_PER_SEC);
  }

  lemma EighthBelow(diff: nat, ltBw: nat)
    requires diff < SAFE_RATE && ltBw < SAFE_RATE
    ensures U32(diff * BBR_UNIT) <= U32(LT_BW_RATIO * ltBw) <==> 8 * diff <= ltBw
  {
    assert U32(diff * BBR_UNIT) == diff * BBR_UNIT;
    assert U32(LT_BW_RATIO * ltBw) == LT_BW_RATIO * ltBw;
  }

  lemma ConsistentBelow(ltBw: nat, e: Env, bw: nat)
    requires ltBw < SAFE_RATE && bw < SAFE_RATE && e.mtu < 0x1_0000
    ensures Consistent(ltBw, e, bw) <==> Close(ltBw, e.mtu, bw)
  {
    hide U32, S32, RateBytesPerSec, ByteRate;
    var diff := Abs(bw - ltBw);
    SmallDifference(bw, ltBw);
    SmallRate(e.mtu, diff);
    EighthBelow(diff, ltBw);
  }

  /** A difference of 2^24 wraps to nothing: a rate of 0 passes for the same as 12 Gbit/s. */
  lemma StandstillIsConsistent(e: Env)
    requires 0 < e.mtu
    ensures Consistent(SAFE_RATE, e, 0) && !Close(SAFE_RATE, e.mtu, 0)
  {
    assert U32(0 - SAFE_RATE) == TWO32 - SAFE_RATE;
    assert U32(SAFE_RATE * BBR_UNIT) == 0;
    assert SAFE_RATE * e.mtu * USEC_PER_SEC / BW_UNIT == e.mtu * USEC_PER_SEC by {
      assert SAFE_RATE * e.mtu * USEC_PER_SEC == e.mtu * USEC_PER_SEC * BW_UNIT;
    }
  }

  /** The test is right for all pairs of rates up to a bound exactly when the bound is below 2^24. */
  lemma ConsistencyIff(e: Env, bound: nat)
    requires 0 < e.mtu < 0x1_0000
    ensures (forall ltBw: nat, bw: nat | ltBw <= bound && bw <= bound ::
               Consistent(ltBw, e, bw) <==> Close(ltBw, e.mtu, bw))
       <==> bound < SAFE_RATE
  {
    hide Consistent, Close;
    if bound < SAFE_RATE {
      forall ltBw: nat, bw: nat | ltBw <= bound && bw <= bound
        ensures Consistent(ltBw, e, bw) <==> Close(ltBw, e.mtu, bw)
      {
        ConsistentBelow(ltBw, e, bw);
      }
    } else {
      StandstillIsConsistent(e);
    }
  }

  /** At the end of an interval the long-term rate is taken up exactly when the interval before had a rate
      close to this one; it then lies between the two and is paced at with gain 1. Otherwise this rate is
      kept for comparison with the next interval, which starts now. */
  lemma PolicedIff(g: Gain, lt: Lt, e: Env, bw: nat)
    requires !lt.useBw && lt.bw < SAFE_RATE && bw < SAFE_RATE && e.mtu < 0x1_0000
    ensures var m := LtIntervalDone(g, lt, e, bw);
            && (m.lt.useBw <==> lt.bw != 0 && Close(lt.bw, e.mtu, bw))
            && m.lt.rttCnt == 0
            && if m.lt.useBw then
                 Min(lt.bw, bw) <= m.lt.bw <= Max(lt.bw, bw) && m.gain.pacing == BBR_UNIT
               else m.lt.bw == bw && m.gain == g && m.lt == ResetLtInterval(m.lt, e)
  {
    ConsistentBelow(lt.bw, e, bw);
    Exact32(bw + lt.bw);
    hide Consistent, Close, U32;
  }
}

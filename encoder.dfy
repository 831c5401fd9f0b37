/**
 * The quadrature encoder driver (EncoderModule). The encoder library counts pulses by
 * interrupts; ReadEncoder takes that count, adds it to an overflow accumulator and reports
 * the accumulated motion once it exceeds delta_threshold. Motion in a direction that is not
 * reported is only amortised, up to delta_threshold, so that jitter cancels out. GetPPR
 * averages the pulse counts of ten index-pin rotations.
 */
module Encoder {
  import opened Runtime

  // Status codes sent to the PC.
  const RotatedCCW: Byte := 51
  const RotatedCW: Byte := 52
  const PPR: Byte := 53

  // Command codes.
  const CheckState: Byte := 1
  const Reset: Byte := 2
  const GetPPR: Byte := 3

  /** The template arguments: the two quadrature pins, the index pin, and the sign flip. */
  datatype EncoderConfig = EncoderConfig(pinA: Byte, pinB: Byte, pinX: Byte, invertDirection: bool)

  datatype EncoderParams = EncoderParams(reportCCW: bool, reportCW: bool, deltaThreshold: Uint32)

  const Defaults := EncoderParams(true, true, 15)

  predicate InInt32(x: int)
  {
    -0x8000_0000 <= x < 0x8000_0000
  }

  function Abs(x: int): nat { if x < 0 then -x else x }

  /** The pulse count with the direction flip applied. */
  function Motion(cfg: EncoderConfig, count: int): int
  {
    count * (if cfg.invertDirection then -1 else 1)
  }

  /** delta_threshold cast to int32 (the two's complement reinterpretation). */
  function PositiveAmortization(t: Uint32): Int32
  {
    if t < 0x8000_0000 then t else t - 0x1_0000_0000
  }

  /** The negation of the positive amortisation, wrapping at the int32 minimum. */
  function NegativeAmortization(t: Uint32): Int32
  {
    var p := PositiveAmortization(t);
    if p == -0x8000_0000 then p else -p
  }

  function Max(a: int, b: int): int { if a >= b then a else b }

  function Min(a: int, b: int): int { if a <= b then a else b }

  /** The overflow after adding the motion m and amortising it when its direction is not reported. */
  function Accumulate(prm: EncoderParams, ov: int, m: int): int
  {
    if (m < 0 && prm.reportCW) || (m > 0 && prm.reportCCW) then ov + m
    else if m < 0 then Max(ov + m, NegativeAmortization(prm.deltaThreshold))
    else Min(ov + m, PositiveAmortization(prm.deltaThreshold))
  }

  /** The outcome of ReadEncoder: the new overflow and the messages sent. */
  datatype Reading = Reading(overflow: int, events: seq<Event>)

  /** One ReadEncoder with overflow ov and new motion m. */
  function ReadStep(prm: EncoderParams, ov: int, m: int): Reading
  {
    if m == 0 then Reading(ov, [])
    else
      var o := Accumulate(prm, ov, m);
      if o < 0 && Abs(o) > prm.deltaThreshold then Reading(0, [Data(RotatedCW, Abs(o))])
      else if o > 0 && Abs(o) > prm.deltaThreshold then Reading(0, [Data(RotatedCCW, Abs(o))])
      else Reading(o, [])
  }

  /** ReadEncoder called once per motion. */
  function ReadRun(prm: EncoderParams, ov: int, motions: seq<int>): Reading
    decreases |motions|
  {
    if motions == [] then Reading(ov, [])
    else
      var first := ReadStep(prm, ov, motions[0]);
      var rest := ReadRun(prm, first.overflow, motions[1..]);
      Reading(rest.overflow, first.events + rest.events)
  }

  /**
   * No motion sends nothing and keeps the overflow. Otherwise at most one message is sent:
   * when the accumulated overflow exceeds delta_threshold it is reported whole, as CW when
   * negative and CCW when positive, and the overflow restarts from zero; below the threshold
   * it is kept and nothing is sent.
   */
  lemma ReadStepReports(prm: EncoderParams, ov: int, m: int)
    ensures var r := ReadStep(prm, ov, m);
      var o := Accumulate(prm, ov, m);
      && (m == 0 ==> r == Reading(ov, []))
      && (m != 0 && Abs(o) > prm.deltaThreshold ==>
            r == Reading(0, [Data(if o < 0 then RotatedCW else RotatedCCW, Abs(o))]))
      && (m != 0 && Abs(o) <= prm.deltaThreshold ==> r == Reading(o, []))
      && |r.events| <= 1
  {
  }

  /**
   * With both directions reported, one read loses no motion: the signed value of what it
   * sends plus the overflow it keeps is the old overflow plus the new motion.
   */
  lemma ReadStepConserves(prm: EncoderParams, ov: int, m: int)
    requires prm.reportCCW && prm.reportCW
    ensures var r := ReadStep(prm, ov, m);
      Signed(r.events) + r.overflow == ov + m
  {
    ReadStepReports(prm, ov, m);
  }

  /** The accumulation rule in the source's own terms, for a threshold that fits an int32. */
  lemma AccumulateClamps(prm: EncoderParams, ov: int, m: int)
    requires prm.deltaThreshold < 0x8000_0000
    ensures m < 0 && prm.reportCW ==> Accumulate(prm, ov, m) == ov + m
    ensures m > 0 && prm.reportCCW ==> Accumulate(prm, ov, m) == ov + m
    ensures m < 0 && !prm.reportCW ==> Accumulate(prm, ov, m) == Max(ov + m, -(prm.deltaThreshold as int))
    ensures m > 0 && !prm.reportCCW ==> Accumulate(prm, ov, m) == Min(ov + m, prm.deltaThreshold)
  {
  }

  /** The flip multiplies the count by -1 exactly when the direction is inverted. */
  lemma MotionSign(cfg: EncoderConfig, count: int)
    ensures cfg.invertDirection ==> Motion(cfg, count) == -count
    ensures !cfg.invertDirection ==> Motion(cfg, count) == count
    ensures Abs(Motion(cfg, count)) == Abs(count)
  {
  }

  /**
   * The int32 arithmetic does not overflow when the sum of the overflow and the new motion
   * does not: the new overflow is again an int32. After any motion, and in any case when it
   * held before, the overflow is within delta_threshold.
   */
  lemma ReadStepBounds(prm: EncoderParams, ov: int, m: int)
    requires InInt32(ov) && InInt32(ov + m)
    ensures InInt32(ReadStep(prm, ov, m).overflow)
    ensures m != 0 ==> Abs(ReadStep(prm, ov, m).overflow) <= prm.deltaThreshold
    ensures Abs(ov) <= prm.deltaThreshold ==> Abs(ReadStep(prm, ov, m).overflow) <= prm.deltaThreshold
  {
  }

  /** The net rotation the messages stand for: CCW counts up, CW counts down. */
  function Signed(es: seq<Event>): int
  {
    if es == [] then 0
    else
      var e := es[0];
      var v := if e.payload.Some? then e.payload.value else 0;
      (if e.code == RotatedCCW then v else if e.code == RotatedCW then -v else 0) + Signed(es[1..])
  }

  function Sum(s: seq<int>): int
  {
    if s == [] then 0 else s[0] + Sum(s[1..])
  }

  lemma {:induction false} SignedConcat(a: seq<Event>, b: seq<Event>)
    ensures Signed(a + b) == Signed(a) + Signed(b)
    decreases |a|
  {
    if a == [] {
      assert a + b == b;
    } else {
      assert (a + b)[1..] == a[1..] + b;
      SignedConcat(a[1..], b);
    }
  }

  /**
   * With both directions reported, no pulse is lost: the motion reported so far plus the
   * overflow still held is the starting overflow plus all the motion read.
   */
  lemma {:induction false} BothDirectionsConserveMotion(prm: EncoderParams, ov: int, motions: seq<int>)
    requires prm.reportCCW && prm.reportCW
    ensures var r := ReadRun(prm, ov, motions);
      Signed(r.events) + r.overflow == ov + Sum(motions)
    decreases |motions|
  {
    if motions != [] {
      var first := ReadStep(prm, ov, motions[0]);
      var rest := ReadRun(prm, first.overflow, motions[1..]);
      BothDirectionsConserveMotion(prm, first.overflow, motions[1..]);
      SignedConcat(first.events, rest.events);
      ReadStepConserves(prm, ov, motions[0]);
    }
  }

  /** Every message is a rotation above delta_threshold; a direction that is not reported is never reported. */
  ghost predicate ReportsRotation(prm: EncoderParams, es: seq<Event>)
  {
    forall i :: 0 <= i < |es| ==>
      && (es[i].code == RotatedCCW || es[i].code == RotatedCW) && es[i].payload.Some?
      && es[i].payload.value > prm.deltaThreshold
      && (es[i].code == RotatedCCW ==> prm.reportCCW)
      && (es[i].code == RotatedCW ==> prm.reportCW)
  }

  lemma {:induction false} ReadRunReports(prm: EncoderParams, ov: int, motions: seq<int>)
    requires Abs(ov) <= prm.deltaThreshold
    ensures var r := ReadRun(prm, ov, motions);
      ReportsRotation(prm, r.events) && Abs(r.overflow) <= prm.deltaThreshold
    decreases |motions|
  {
    if motions != [] {
      var first := ReadStep(prm, ov, motions[0]);
      var rest := ReadRun(prm, first.overflow, motions[1..]);
      assert ReportsRotation(prm, first.events) && Abs(first.overflow) <= prm.deltaThreshold;
      ReadRunReports(prm, first.overflow, motions[1..]);
      var es := first.events + rest.events;
      forall i | 0 <= i < |es|
        ensures (es[i].code == RotatedCCW || es[i].code == RotatedCW) && es[i].payload.Some?
        ensures es[i].payload.value > prm.deltaThreshold
        ensures es[i].code == RotatedCCW ==> prm.reportCCW
        ensures es[i].code == RotatedCW ==> prm.reportCW
      {
        if i >= |first.events| {
          assert es[i] == rest.events[i - |first.events|];
        }
      }
    }
  }

  /** With neither direction reported, starting within the threshold, nothing is ever sent. */
  lemma {:induction false} SilentWhenNothingReported(prm: EncoderParams, ov: int, motions: seq<int>)
    requires !prm.reportCCW && !prm.reportCW
    requires Abs(ov) <= prm.deltaThreshold
    ensures ReadRun(prm, ov, motions).events == []
    decreases |motions|
  {
    if motions != [] {
      var first := ReadStep(prm, ov, motions[0]);
      assert first.events == [] && Abs(first.overflow) <= prm.deltaThreshold;
      SilentWhenNothingReported(prm, first.overflow, motions[1..]);
    }
  }

  /**
   * With the defaults, an overflow of ten pulses and six new ones are reported together
   * as CCW(16). That the ten survive a reset is ResetEncoder's frame (it modifies only the
   * counter) and RunActiveCommand's `overflow == old(overflow)` for that command.
   */
  lemma OverflowSurvivesReset()
    ensures ReadStep(Defaults, 10, 6) == Reading(0, [Data(RotatedCCW, 16)])
  {
  }

  /** The uint32 accumulation of GetPPR over the absolute counts. */
  function WrappedSum(counts: seq<Int32>): Uint32
  {
    if counts == [] then 0
    else (WrappedSum(counts[..|counts| - 1]) + Abs(counts[|counts| - 1])) % 0x1_0000_0000
  }

  /** The exact sum of the absolute counts. */
  function SumAbs(counts: seq<Int32>): nat
  {
    if counts == [] then 0 else SumAbs(counts[..|counts| - 1]) + Abs(counts[|counts| - 1])
  }

  /** The reported PPR: the half-up quotient by ten, in uint32 arithmetic, truncated to uint16. */
  function Ppr(counts: seq<Int32>): Uint16
  {
    ((WrappedSum(counts) + 5) % 0x1_0000_0000 / 10) % 0x1_0000
  }

  /** The wrapped accumulation is the exact sum reduced modulo 2^32. */
  lemma {:induction false} WrappedSumIsSumMod(counts: seq<Int32>)
    ensures WrappedSum(counts) == SumAbs(counts) % 0x1_0000_0000
    decreases |counts|
  {
    if counts != [] {
      var init := counts[..|counts| - 1];
      WrappedSumIsSumMod(init);
      var n := Abs(counts[|counts| - 1]);
      ModAdd(SumAbs(init), n);
    }
  }

  lemma ModAdd(a: nat, b: nat)
    ensures (a % 0x1_0000_0000 + b) % 0x1_0000_0000 == (a + b) % 0x1_0000_0000
  {
  }

  /**
   * Without wrap-around (the sum and the mean fit their types), the PPR is the mean of the
   * absolute counts rounded half up: ten times it is within five of the sum, ties upward.
   */
  lemma PprIsRoundedMean(counts: seq<Int32>)
    requires SumAbs(counts) + 5 < 0x1_0000_0000
    requires SumAbs(counts) + 5 < 10 * 0x1_0000
    ensures 10 * Ppr(counts) - 5 <= SumAbs(counts) < 10 * Ppr(counts) + 5
  {
    var total := SumAbs(counts);
    WrappedSumIsSumMod(counts);
    assert WrappedSum(counts) == total;
    assert (total + 5) % 0x1_0000_0000 == total + 5;
    var q := (total + 5) / 10;
    assert q < 0x1_0000;
    assert Ppr(counts) == q;
    assert 10 * q <= total + 5 < 10 * q + 10;
  }

  class EncoderModule {
    const cfg: EncoderConfig
    var params: EncoderParams
    var ctx: Context
    /** The pulse count the encoder library has accumulated since it was last reset. */
    var counter: Int32
    var overflow: Int32

    constructor (cfg: EncoderConfig, ctx: Context)
      ensures this.cfg == cfg && params == Defaults && this.ctx == ctx
      ensures counter == 0 && overflow == 0
    {
      this.cfg := cfg;
      params := Defaults;
      this.ctx := ctx;
      counter := 0;
      overflow := 0;
    }

    method SetCustomParameters(p: EncoderParams) returns (ok: bool)
      modifies this`params
      ensures ok && params == p
    {
      params := p;
      ok := true;
    }

    /** Clears the counter and the overflow, restores the defaults and reports CW(0). */
    method SetupModule() returns (ok: bool)
      modifies this`ctx, this`params, this`counter, this`overflow
      ensures ok && params == Defaults && counter == 0 && overflow == 0
      ensures ctx == old(ctx).SendData(Data(RotatedCW, 0))
    {
      counter := 0;
      overflow := 0;
      params := Defaults;
      ctx := ctx.SendData(Data(RotatedCW, 0));
      ok := true;
    }

    /** counts stands for the ten pulse counts GetPPR would read, one per index-pin rotation. */
    method RunActiveCommand(counts: seq<Int32>) returns (handled: bool)
      requires ctx.command == CheckState ==>
                 InInt32(Motion(cfg, counter)) && InInt32(overflow + Motion(cfg, counter))
      requires ctx.command == GetPPR ==> |counts| == 10
      modifies this`ctx, this`counter, this`overflow
      ensures handled <==> 1 <= old(ctx.command) <= 3
      ensures old(ctx.command) == CheckState ==>
                var r := ReadStep(params, old(overflow), Motion(cfg, old(counter)));
                && overflow == r.overflow && counter == 0
                && ctx == old(ctx).SendAll(r.events).CompleteCommand()
      ensures old(ctx.command) == Reset ==>
                counter == 0 && overflow == old(overflow) && ctx == old(ctx).CompleteCommand()
      ensures old(ctx.command) == GetPPR ==>
                counter == 0 && overflow == old(overflow)
                && ctx == old(ctx).SendData(Data(PPR, Ppr(counts))).CompleteCommand()
      ensures !handled ==> ctx == old(ctx) && counter == old(counter) && overflow == old(overflow)
    {
      var command := ctx.command;
      if command == CheckState {
        ReadEncoder();
        handled := true;
      } else if command == Reset {
        ResetEncoder();
        handled := true;
      } else if command == GetPPR {
        MeasurePpr(counts);
        handled := true;
      } else {
        handled := false;
      }
    }

    /** Reads and resets the counter and reports the accumulated motion once it is significant. */
    method ReadEncoder()
      requires InInt32(Motion(cfg, counter)) && InInt32(overflow + Motion(cfg, counter))
      modifies this`ctx, this`counter, this`overflow
      ensures var r := ReadStep(params, old(overflow), Motion(cfg, old(counter)));
        && overflow == r.overflow && counter == 0
        && ctx == old(ctx).SendAll(r.events).CompleteCommand()
    {
      var motion := counter * (if cfg.invertDirection then -1 else 1);
      counter := 0;
      var positive := PositiveAmortization(params.deltaThreshold);
      var negative := NegativeAmortization(params.deltaThreshold);
      if motion == 0 {
        assert ctx.SendAll([]) == ctx;
        ctx := ctx.CompleteCommand();
        return;
      }
      var o: int := overflow + motion;
      if (motion < 0 && params.reportCW) || (motion > 0 && params.reportCCW) {
      } else if motion < 0 {
        if o < negative {
          o := negative;
        }
      } else {
        if o > positive {
          o := positive;
        }
      }
      var delta := Abs(o);
      if o < 0 && delta > params.deltaThreshold {
        ctx := ctx.SendData(Data(RotatedCW, delta));
        overflow := 0;
      } else if o > 0 && delta > params.deltaThreshold {
        ctx := ctx.SendData(Data(RotatedCCW, delta));
        overflow := 0;
      } else {
        assert ctx.SendAll([]) == ctx;
        overflow := o;
      }
      ctx := ctx.CompleteCommand();
    }

    /** Clears the counter only; the overflow is kept. */
    method ResetEncoder()
      modifies this`ctx, this`counter
      ensures counter == 0 && ctx == old(ctx).CompleteCommand()
    {
      counter := 0;
      ctx := ctx.CompleteCommand();
    }

    /** GetPPR over the ten pulse counts read at successive index-pin triggers. */
    method MeasurePpr(counts: seq<Int32>)
      requires |counts| == 10
      modifies this`ctx, this`counter
      ensures counter == 0
      ensures ctx == old(ctx).SendData(Data(PPR, Ppr(counts))).CompleteCommand()
    {
      counter := 0;
      var pprs: Uint32 := 0;
      for i := 0 to 10
        invariant pprs == WrappedSum(counts[..i])
      {
        assert counts[..i + 1][..i] == counts[..i];
        pprs := (pprs + Abs(counts[i])) % 0x1_0000_0000;
      }
      assert counts[..10] == counts;
      var averagePpr: Uint16 := ((pprs + 5) % 0x1_0000_0000 / 10) % 0x1_0000;
      ctx := ctx.SendData(Data(PPR, averagePpr));
      ctx := ctx.CompleteCommand();
    }
  }
}

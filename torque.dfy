/**
 * The torque sensor driver (TorqueModule): an analog pin carrying an amplified bipolar
 * signal centred on a baseline. Readings above the baseline are CCW torque and readings
 * below it CW torque (swapped when the direction is inverted); the reported value is the
 * distance from the baseline.
 */
module Torque {
  import opened Runtime
  import opened ChangeFilter

  // Status codes sent to the PC (with a uint16 payload).
  const CCWTorque: Byte := 51
  const CWTorque: Byte := 52

  // Command code.
  const CheckState: Byte := 1

  /** The template arguments: the analog pin, the zero-torque reading and the direction flip. */
  datatype TorqueConfig = TorqueConfig(pin: Byte, baseline: Uint16, invertDirection: bool)

  datatype TorqueParams = TorqueParams(
    reportCCW: bool,
    reportCW: bool,
    signalThreshold: Uint16,
    deltaThreshold: Uint16,
    averagePoolSize: Byte)

  const Defaults := TorqueParams(true, true, 100, 70, 5)

  /** A reading as direction and magnitude. */
  datatype Deflection = Deflection(cw: bool, magnitude: Uint16)

  /** The filter memory as the firmware initialises it: the baseline, no zero reported. */
  function Fresh(cfg: TorqueConfig): FilterMemory
  {
    FilterMemory(cfg.baseline, false)
  }

  /** The baseline decode that CheckState applies to a reading past the delta gate. */
  function Decode(cfg: TorqueConfig, signal: Uint16): Deflection
  {
    if signal > cfg.baseline then Deflection(false != cfg.invertDirection, signal - cfg.baseline)
    else if signal < cfg.baseline then Deflection(true != cfg.invertDirection, cfg.baseline - signal)
    else Deflection(false, 0)
  }

  /** The reading a deflection stands for. */
  function Encode(cfg: TorqueConfig, d: Deflection): int
  {
    if d.cw != cfg.invertDirection then cfg.baseline - d.magnitude else cfg.baseline + d.magnitude
  }

  /**
   * Decoding loses nothing: the reading is recovered from direction and magnitude. The
   * magnitude is the distance from the baseline, so it is zero only at the baseline and at
   * most the baseline on the CW side (CCW when inverted).
   */
  lemma DecodeRoundTrip(cfg: TorqueConfig, signal: Uint16)
    ensures Encode(cfg, Decode(cfg, signal)) == signal
    ensures Decode(cfg, signal).magnitude == Abs(signal - cfg.baseline)
    ensures signal < cfg.baseline ==> Decode(cfg, signal).magnitude <= cfg.baseline
    ensures signal != cfg.baseline ==> (Decode(cfg, signal).cw <==> (signal < cfg.baseline) != cfg.invertDirection)
  {
  }

  /** Two readings with the same decode are the same reading. */
  lemma DecodeInjective(cfg: TorqueConfig, s: Uint16, t: Uint16)
    requires Decode(cfg, s) == Decode(cfg, t)
    ensures s == t
  {
    DecodeRoundTrip(cfg, s);
    DecodeRoundTrip(cfg, t);
  }

  /** One CheckState on the averaged reading signal. */
  function TorqueStep(cfg: TorqueConfig, prm: TorqueParams, m: FilterMemory, signal: Uint16): Checked
  {
    if !Passes(m, signal, prm.deltaThreshold) then Checked(m, [])
    else
      var d := Decode(cfg, signal);
      if d.magnitude < prm.signalThreshold then
        if !m.previousZero then Checked(FilterMemory(signal, true), [Data(CCWTorque, 0)])
        else Checked(FilterMemory(signal, true), [])
      else if !d.cw && prm.reportCCW then Checked(FilterMemory(signal, false), [Data(CCWTorque, d.magnitude)])
      else if d.cw && prm.reportCW then Checked(FilterMemory(signal, false), [Data(CWTorque, d.magnitude)])
      else Checked(FilterMemory(signal, false), [])
  }

  /** CheckState called once per reading. */
  function TorqueRun(cfg: TorqueConfig, prm: TorqueParams, m: FilterMemory, signals: seq<Uint16>): Checked
    decreases |signals|
  {
    if signals == [] then Checked(m, [])
    else
      var first := TorqueStep(cfg, prm, m, signals[0]);
      var rest := TorqueRun(cfg, prm, first.memory, signals[1..]);
      Checked(rest.memory, first.events + rest.events)
  }

  /**
   * A reading within delta_threshold of the previous accepted one is dropped and leaves the
   * memory as it was. Otherwise the raw reading becomes the previous readout; a magnitude
   * below signal_threshold is reported as CCW(0) unless the last report was a zero, and a
   * larger one is reported in its direction if that direction is enabled, and in any case
   * clears the zero flag.
   */
  lemma TorqueStepReports(cfg: TorqueConfig, prm: TorqueParams, m: FilterMemory, signal: Uint16)
    ensures var r := TorqueStep(cfg, prm, m, signal);
      var d := Decode(cfg, signal);
      && (!Passes(m, signal, prm.deltaThreshold) ==> r == Checked(m, []))
      && (Passes(m, signal, prm.deltaThreshold) ==>
            && r.memory.previousReadout == signal
            && (r.memory.previousZero <==> d.magnitude < prm.signalThreshold)
            && (d.magnitude < prm.signalThreshold ==>
                  r.events == (if m.previousZero then [] else [Data(CCWTorque, 0)]))
            && (d.magnitude >= prm.signalThreshold ==>
                  && (r.events == [Data(CCWTorque, d.magnitude)] <==> !d.cw && prm.reportCCW)
                  && (r.events == [Data(CWTorque, d.magnitude)] <==> d.cw && prm.reportCW)
                  && (r.events == [] <==> (if d.cw then !prm.reportCW else !prm.reportCCW))))
  {
  }

  /**
   * The delta gate works on the raw reading, so once a reading has been checked the same
   * reading again is dropped, whatever its direction and magnitude: no report, memory kept.
   */
  lemma RepeatedReadingIsDropped(cfg: TorqueConfig, prm: TorqueParams, m: FilterMemory, signal: Uint16)
    ensures var m1 := TorqueStep(cfg, prm, m, signal).memory;
      TorqueStep(cfg, prm, m1, signal) == Checked(m1, [])
  {
    TorqueStepReports(cfg, prm, m, signal);
  }

  /** Every report is a torque message whose nonzero value reached signal_threshold. */
  ghost predicate ReportsTorque(prm: TorqueParams, es: seq<Event>)
  {
    forall i :: 0 <= i < |es| ==>
      && (es[i].code == CCWTorque || es[i].code == CWTorque) && es[i].payload.Some?
      && (es[i].payload.value == 0 || prm.signalThreshold <= es[i].payload.value)
  }

  lemma {:induction false} TorquePayloads(cfg: TorqueConfig, prm: TorqueParams, m: FilterMemory, signals: seq<Uint16>)
    ensures ReportsTorque(prm, TorqueRun(cfg, prm, m, signals).events)
    decreases |signals|
  {
    if signals != [] {
      var first := TorqueStep(cfg, prm, m, signals[0]);
      var rest := TorqueRun(cfg, prm, first.memory, signals[1..]);
      TorquePayloads(cfg, prm, first.memory, signals[1..]);
      var es := first.events + rest.events;
      forall i | 0 <= i < |es|
        ensures (es[i].code == CCWTorque || es[i].code == CWTorque) && es[i].payload.Some?
        ensures es[i].payload.value == 0 || prm.signalThreshold <= es[i].payload.value
      {
        if i >= |first.events| {
          assert es[i] == rest.events[i - |first.events|];
        }
      }
    }
  }

  /** The zero-collapse invariant; z says whether the last report was a zero. */
  ghost predicate ZeroEntitled(cfg: TorqueConfig, prm: TorqueParams, m: FilterMemory, z: bool)
  {
    z ==> (m.previousZero && prm.signalThreshold > 0) ||
          (m.previousReadout == cfg.baseline && prm.signalThreshold == 0)
  }

  lemma {:induction false} TorqueRunNoRepeatedZero(cfg: TorqueConfig, prm: TorqueParams, m: FilterMemory,
                                                   signals: seq<Uint16>, z: bool)
    requires prm.reportCCW && prm.reportCW
    requires ZeroEntitled(cfg, prm, m, z)
    ensures var r := TorqueRun(cfg, prm, m, signals);
      && NoRepeatedZero(r.events)
      && (z && r.events != [] ==> !IsZero(r.events[0]))
    decreases |signals|
  {
    if signals != [] {
      var first := TorqueStep(cfg, prm, m, signals[0]);
      DecodeRoundTrip(cfg, signals[0]);
      var z1 := EndsZero(z, first.events);
      assert ZeroEntitled(cfg, prm, first.memory, z1);
      TorqueRunNoRepeatedZero(cfg, prm, first.memory, signals[1..], z1);
      var rest := TorqueRun(cfg, prm, first.memory, signals[1..]);
      ConcatNoRepeatedZero(z, first.events, rest.events);
    }
  }

  /** With both directions reported, CheckState never sends two zeros in a row. */
  lemma CheckStateNeverRepeatsZero(cfg: TorqueConfig, prm: TorqueParams, m: FilterMemory, signals: seq<Uint16>)
    requires prm.reportCCW && prm.reportCW
    ensures NoRepeatedZero(TorqueRun(cfg, prm, m, signals).events)
  {
    TorqueRunNoRepeatedZero(cfg, prm, m, signals, false);
  }

  /**
   * With CW reports disabled, a silent CW reading still clears the zero flag, so two zeros
   * can follow each other: baseline 2048, thresholds 100/70, readings 2128, 1900, 2048.
   */
  lemma DisabledDirectionRepeatsZero()
    ensures var cfg := TorqueConfig(41, 2048, false);
      var prm := TorqueParams(true, false, 100, 70, 5);
      TorqueRun(cfg, prm, Fresh(cfg), [2128, 1900, 2048]).events == [Data(CCWTorque, 0), Data(CCWTorque, 0)]
  {
    var cfg := TorqueConfig(41, 2048, false);
    var prm := TorqueParams(true, false, 100, 70, 5);
    var s: seq<Uint16> := [2128, 1900, 2048];
    assert s[1..] == [1900, 2048] && s[1..][1..] == [2048] && s[1..][1..][1..] == [];
    assert TorqueRun(cfg, prm, FilterMemory(1900, false), [2048]).events == [Data(CCWTorque, 0)];
    assert TorqueRun(cfg, prm, FilterMemory(2128, true), [1900, 2048]).events == [Data(CCWTorque, 0)];
  }

  class TorqueModule {
    const cfg: TorqueConfig
    var params: TorqueParams
    var ctx: Context
    var previousReadout: Uint16
    var previousZero: bool

    constructor (cfg: TorqueConfig, ctx: Context)
      ensures this.cfg == cfg && params == Defaults && this.ctx == ctx
      ensures FilterMemory(previousReadout, previousZero) == Fresh(cfg)
    {
      this.cfg := cfg;
      params := Defaults;
      this.ctx := ctx;
      previousReadout := cfg.baseline;
      previousZero := false;
    }

    method SetCustomParameters(p: TorqueParams) returns (ok: bool)
      modifies this`params
      ensures ok && params == p
    {
      params := p;
      ok := true;
    }

    /** Restores the defaults and reports CCW(0); the filter memory is left as it is. */
    method SetupModule() returns (ok: bool)
      modifies this`ctx, this`params
      ensures ok && params == Defaults
      ensures ctx == old(ctx).SendData(Data(CCWTorque, 0))
    {
      params := Defaults;
      ctx := ctx.SendData(Data(CCWTorque, 0));
      ok := true;
    }

    method RunActiveCommand(signal: Uint16) returns (handled: bool)
      modifies this`ctx, this`previousReadout, this`previousZero
      ensures handled <==> old(ctx.command) == CheckState
      ensures handled ==>
                var r := TorqueStep(cfg, params, FilterMemory(old(previousReadout), old(previousZero)), signal);
                && FilterMemory(previousReadout, previousZero) == r.memory
                && ctx == old(ctx).SendAll(r.events).CompleteCommand()
      ensures !handled ==> ctx == old(ctx) && previousReadout == old(previousReadout) && previousZero == old(previousZero)
    {
      if ctx.command == CheckState {
        Check(signal);
        handled := true;
      } else {
        handled := false;
      }
    }

    /** CheckState; signal is the averaged AnalogRead of the pin. */
    method Check(signal: Uint16)
      modifies this`ctx, this`previousReadout, this`previousZero
      ensures var r := TorqueStep(cfg, params, FilterMemory(old(previousReadout), old(previousZero)), signal);
        && FilterMemory(previousReadout, previousZero) == r.memory
        && ctx == old(ctx).SendAll(r.events).CompleteCommand()
    {
      var delta := Abs(signal - previousReadout);
      if delta <= params.deltaThreshold {
        assert ctx.SendAll([]) == ctx;
        ctx := ctx.CompleteCommand();
        return;
      }
      previousReadout := signal;
      var cw: bool;
      var magnitude: Uint16;
      if signal > cfg.baseline {
        cw := false != cfg.invertDirection;
        magnitude := signal - cfg.baseline;
      } else if signal < cfg.baseline {
        cw := true != cfg.invertDirection;
        magnitude := cfg.baseline - signal;
      } else {
        cw := false;
        magnitude := 0;
      }
      if magnitude < params.signalThreshold {
        if !previousZero {
          ctx := ctx.SendData(Data(CCWTorque, 0));
          previousZero := true;
        } else {
          assert ctx.SendAll([]) == ctx;
        }
      } else {
        if !cw && params.reportCCW {
          ctx := ctx.SendData(Data(CCWTorque, magnitude));
        } else if cw && params.reportCW {
          ctx := ctx.SendData(Data(CWTorque, magnitude));
        } else {
          assert ctx.SendAll([]) == ctx;
        }
        previousZero := false;
      }
      ctx := ctx.CompleteCommand();
    }
  }
}

/**
 * The TTL driver (TTLModule): one digital pin used either as an output that sends pulses or
 * holds a level, on the TTL lock, or as an input whose level changes are reported to the PC.
 */
module Ttl {
  import opened Runtime
  import opened Sequencer

  // Status codes sent to the PC.
  const InputOn: Byte := 52
  const InputOff: Byte := 53
  const InvalidPinMode: Byte := 54

  // Command codes.
  const SendPulse: Byte := 1
  const ToggleOn: Byte := 2
  const ToggleOff: Byte := 3
  const CheckState: Byte := 4

  /** The template arguments: the pin, whether it is an output, and an output's start level. */
  datatype TtlConfig = TtlConfig(pin: Byte, output: bool, startOn: bool)

  datatype TtlParams = TtlParams(pulseDuration: Uint32, averagePoolSize: Byte)

  const Defaults := TtlParams(10000, 0)

  /** A command issued with the pin in the wrong direction reports it and aborts. */
  function InvalidMode(c: Context): Context
  {
    c.SendData(Code(InvalidPinMode)).AbortCommand()
  }

  /** Pulse: HIGH, wait pulse_duration, LOW, on the TTL lock, with no confirmation messages. */
  function Shape(cfg: TtlConfig, prm: TtlParams): PulseShape
  {
    PulseShape([cfg.pin], HIGH, LOW, prm.pulseDuration, true, [], [])
  }

  function SendPulseTick(cfg: TtlConfig, prm: TtlParams, c: Context, now: int): Context
  {
    if !cfg.output then InvalidMode(c) else PulseTick(Shape(cfg, prm), c, now)
  }

  function Toggle(cfg: TtlConfig, c: Context, level: bool): Context
  {
    if !cfg.output then InvalidMode(c) else SetOutput(c, cfg.pin, Digital(level), true, [])
  }

  /** The report for one input reading against the stored previous level. */
  function InputReport(previous: bool, reading: bool): seq<Event>
  {
    if previous == reading then [] else [Code(if reading then InputOn else InputOff)]
  }

  /** CheckState on an input pin: the stored level and the reports after a series of readings. */
  function InputRun(previous: bool, readings: seq<bool>): (bool, seq<Event>)
    decreases |readings|
  {
    if readings == [] then (previous, [])
    else
      var (last, rest) := InputRun(readings[0], readings[1..]);
      (last, InputReport(previous, readings[0]) + rest)
  }

  /** Only direction mismatches are reported; a write in the wrong direction never happens. */
  lemma WrongDirectionAborts(cfg: TtlConfig, prm: TtlParams, c: Context, now: int, level: bool)
    requires !cfg.output
    ensures var p := SendPulseTick(cfg, prm, c, now);
      p.status == Aborted && p.log == c.log + [Code(InvalidPinMode)] && p.pins == c.pins
    ensures var t := Toggle(cfg, c, level);
      t.status == Aborted && t.log == c.log + [Code(InvalidPinMode)] && t.pins == c.pins
  {
  }

  /**
   * A pulse on an output pin ends, if it completes, with the pin written HIGH then LOW and no
   * message sent, and it completes once the TTL lock stays released until the last tick
   * comes pulse_duration after the first.
   */
  lemma {:induction false} PulseIsSilent(cfg: TtlConfig, prm: TtlParams, c: Context, ticks: seq<Tick>)
    requires cfg.output && c.stage == 1 && c.status == Running
    ensures var r := PulseRun(Shape(cfg, prm), c, ticks);
      && (r.status == Completed ==>
            && r.log == c.log
            && r.writes == c.writes + [PinWrite(cfg.pin, Digital(HIGH)), PinWrite(cfg.pin, Digital(LOW))]
            && cfg.pin in r.pins && r.pins[cfg.pin] == Digital(LOW))
      && (r.status == Aborted ==> r.log == c.log + [Code(OutputLocked)])
      && ((forall i :: 0 <= i < |ticks| ==> ticks[i].Unlocks(true)) &&
          LongEnough(Shape(cfg, prm), if ticks == [] then 0 else ticks[0].now, ticks) ==>
            r.status == Completed)
  {
    var s := Shape(cfg, prm);
    PulseRunOutcome(s, c, ticks);
    if (forall i :: 0 <= i < |ticks| ==> ticks[i].Unlocks(true)) &&
       LongEnough(s, if ticks == [] then 0 else ticks[0].now, ticks) {
      PulseRunCompletes(s, c, ticks);
    }
  }

  /**
   * Over any series of readings: every report is InputOn or InputOff, consecutive reports
   * alternate, the first one differs from the level stored before, the last one names the
   * last reading's level, and the stored level ends as the last reading.
   */
  lemma {:induction false} InputReportsAlternate(previous: bool, readings: seq<bool>)
    ensures var (last, es) := InputRun(previous, readings);
      && last == (if readings == [] then previous else readings[|readings| - 1])
      && (forall i :: 0 <= i < |es| ==> es[i] == Code(InputOn) || es[i] == Code(InputOff))
      && (forall i :: 0 <= i < |es| - 1 ==> es[i] != es[i + 1])
      && (es != [] ==> es[0] == Code(if previous then InputOff else InputOn))
      && (es != [] ==> es[|es| - 1] == Code(if last then InputOn else InputOff))
      && (es == [] ==> last == previous)
    decreases |readings|
  {
    if readings != [] {
      InputReportsAlternate(readings[0], readings[1..]);
      var (last, rest) := InputRun(readings[0], readings[1..]);
      var head := InputReport(previous, readings[0]);
      var es := head + rest;
      assert InputRun(previous, readings) == (last, es);
      if readings[1..] != [] {
        assert readings[1..][|readings[1..]| - 1] == readings[|readings| - 1];
      }
      forall i | 0 <= i < |es| - 1
        ensures es[i] != es[i + 1]
      {
        if i >= |head| {
          assert es[i] == rest[i - |head|] && es[i + 1] == rest[i - |head| + 1];
        }
      }
    }
  }

  /** Readings that all equal the stored level produce no report. */
  lemma {:induction false} SteadyInputIsSilent(previous: bool, readings: seq<bool>)
    requires forall i :: 0 <= i < |readings| ==> readings[i] == previous
    ensures InputRun(previous, readings) == (previous, [])
    decreases |readings|
  {
    if readings != [] {
      assert readings[0] == previous;
      SteadyInputIsSilent(previous, readings[1..]);
      assert InputRun(readings[0], readings[1..]) == (previous, []);
      assert InputReport(previous, readings[0]) == [];
      var none: seq<Event> := [];
      assert none + none == none;
    }
  }

  class TtlModule {
    const cfg: TtlConfig
    var params: TtlParams
    var ctx: Context
    /** The last reported input level: initialised LOW at construction, updated by CheckState. */
    var previousInputStatus: bool

    constructor (cfg: TtlConfig, ctx: Context)
      ensures this.cfg == cfg && params == Defaults && this.ctx == ctx && !previousInputStatus
    {
      this.cfg := cfg;
      params := Defaults;
      this.ctx := ctx;
      previousInputStatus := false;
    }

    method SetCustomParameters(p: TtlParams) returns (ok: bool)
      modifies this`params
      ensures ok && params == p
    {
      params := p;
      ok := true;
    }

    /** An output pin is driven to its start level; no message is sent. */
    method SetupModule() returns (ok: bool)
      modifies this`ctx, this`params
      ensures ok && params == Defaults
      ensures cfg.output ==> ctx == old(ctx).WriteFast(cfg.pin, Digital(cfg.startOn))
      ensures !cfg.output ==> ctx == old(ctx)
    {
      if cfg.output {
        if !cfg.startOn {
          ctx := ctx.WriteFast(cfg.pin, Digital(LOW));
        } else {
          ctx := ctx.WriteFast(cfg.pin, Digital(HIGH));
        }
      }
      params := Defaults;
      ok := true;
    }

    method RunActiveCommand(now: int, reading: bool) returns (handled: bool)
      modifies this`ctx, this`previousInputStatus
      ensures handled <==> 1 <= old(ctx.command) <= 4
      ensures old(ctx.command) == SendPulse ==> ctx == SendPulseTick(cfg, params, old(ctx), now)
      ensures old(ctx.command) == ToggleOn ==> ctx == Toggle(cfg, old(ctx), HIGH)
      ensures old(ctx.command) == ToggleOff ==> ctx == Toggle(cfg, old(ctx), LOW)
      ensures old(ctx.command) == CheckState && !cfg.output ==>
                && previousInputStatus == reading
                && ctx == old(ctx).SendAll(InputReport(old(previousInputStatus), reading)).CompleteCommand()
      ensures old(ctx.command) == CheckState && cfg.output ==> ctx == InvalidMode(old(ctx))
      ensures !handled ==> ctx == old(ctx)
      ensures old(ctx.command) != CheckState || cfg.output ==> previousInputStatus == old(previousInputStatus)
    {
      var command := ctx.command;
      if command == SendPulse {
        Pulse(now);
        handled := true;
      } else if command == ToggleOn {
        SetLevel(HIGH);
        handled := true;
      } else if command == ToggleOff {
        SetLevel(LOW);
        handled := true;
      } else if command == CheckState {
        CheckInput(reading);
        handled := true;
      } else {
        handled := false;
      }
    }

    method Pulse(now: int)
      modifies this`ctx
      ensures ctx == SendPulseTick(cfg, params, old(ctx), now)
    {
      if !cfg.output {
        ctx := ctx.SendData(Code(InvalidPinMode));
        ctx := ctx.AbortCommand();
        return;
      }
      assert SendPulseTick(cfg, params, ctx, now) == PulseTick(Shape(cfg, params), ctx, now);
      WriteAllFastSingle(ctx, cfg.pin, Digital(HIGH));
      if ctx.stage == 1 {
        assert ctx.WriteFast(cfg.pin, Digital(HIGH)).SendAll([]) == ctx.WriteFast(cfg.pin, Digital(HIGH));
        var written := ctx.Unlocked(true);
        ctx := ctx.DigitalWrite(cfg.pin, HIGH, true);
        if written {
          ctx := ctx.AdvanceCommandStage(now);
        } else {
          ctx := ctx.SendData(Code(OutputLocked));
          ctx := ctx.AbortCommand();
          return;
        }
      }
      if ctx.stage == 2 {
        if !ctx.WaitForMicros(now, params.pulseDuration) {
          return;
        }
        ctx := ctx.AdvanceCommandStage(now);
      }
      if ctx.stage == 3 {
        WriteAllFastSingle(ctx, cfg.pin, Digital(LOW));
        assert ctx.WriteFast(cfg.pin, Digital(LOW)).SendAll([]) == ctx.WriteFast(cfg.pin, Digital(LOW));
        var written := ctx.Unlocked(true);
        ctx := ctx.DigitalWrite(cfg.pin, LOW, true);
        if written {
          ctx := ctx.CompleteCommand();
        } else {
          ctx := ctx.SendData(Code(OutputLocked));
          ctx := ctx.AbortCommand();
        }
      }
    }

    /** ToggleOn (level HIGH) and ToggleOff (level LOW). */
    method SetLevel(level: bool)
      modifies this`ctx
      ensures ctx == Toggle(cfg, old(ctx), level)
    {
      if !cfg.output {
        ctx := ctx.SendData(Code(InvalidPinMode));
        ctx := ctx.AbortCommand();
        return;
      }
      var written := ctx.Unlocked(true);
      ctx := ctx.DigitalWrite(cfg.pin, level, true);
      if written {
        ctx := ctx.CompleteCommand();
      } else {
        ctx := ctx.SendData(Code(OutputLocked));
        ctx := ctx.AbortCommand();
      }
    }

    /** CheckState: reading is the (averaged) level DigitalRead returns for the pin. */
    method CheckInput(reading: bool)
      modifies this`ctx, this`previousInputStatus
      ensures cfg.output ==> ctx == InvalidMode(old(ctx)) && previousInputStatus == old(previousInputStatus)
      ensures !cfg.output ==>
                && previousInputStatus == reading
                && ctx == old(ctx).SendAll(InputReport(old(previousInputStatus), reading)).CompleteCommand()
    {
      if cfg.output {
        ctx := ctx.SendData(Code(InvalidPinMode));
        ctx := ctx.AbortCommand();
        return;
      }
      if previousInputStatus != reading {
        previousInputStatus := reading;
        if reading {
          ctx := ctx.SendData(Code(InputOn));
        } else {
          ctx := ctx.SendData(Code(InputOff));
        }
      }
      ctx := ctx.CompleteCommand();
    }
  }
}

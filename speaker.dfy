/**
 * The piezo buzzer driver (SpeakerModule): a FET-gated relay on one pin, driven HIGH to
 * sound the buzzer and LOW to silence it.
 */
module Speaker {
  import opened Runtime
  import opened Sequencer

  // Status codes sent to the PC.
  const On: Byte := 52
  const Off: Byte := 53

  // Command codes.
  const SendPulse: Byte := 1
  const ToggleOn: Byte := 2
  const ToggleOff: Byte := 3

  /** The template arguments: the relay pin and whether the buzzer starts silent. */
  datatype SpeakerConfig = SpeakerConfig(pin: Byte, startOff: bool)

  /** The PC-addressable parameters. */
  datatype SpeakerParams = SpeakerParams(pulseDuration: Uint32)

  const Defaults := SpeakerParams(100000)

  /** Pulse: HIGH, wait pulse_duration, LOW, on the actor lock, reporting On and Off. */
  function Shape(cfg: SpeakerConfig, prm: SpeakerParams): PulseShape
  {
    PulseShape([cfg.pin], HIGH, LOW, prm.pulseDuration, false, [Code(On)], [Code(Off)])
  }

  /**
   * A pulse issued at c ends, if it completes, with exactly On then Off sent, the pin written
   * HIGH then LOW and left LOW; if it aborts, the last message is OutputLocked. With the actor
   * lock released throughout and a last tick pulse_duration after the first, it completes.
   */
  lemma {:induction false} PulseEmitsOnOff(cfg: SpeakerConfig, prm: SpeakerParams, c: Context, ticks: seq<Tick>)
    requires c.stage == 1 && c.status == Running
    ensures var r := PulseRun(Shape(cfg, prm), c, ticks);
      && (r.status == Completed ==>
            && r.log == c.log + [Code(On), Code(Off)]
            && r.writes == c.writes + [PinWrite(cfg.pin, Digital(HIGH)), PinWrite(cfg.pin, Digital(LOW))]
            && cfg.pin in r.pins && r.pins[cfg.pin] == Digital(LOW))
      && (r.status == Aborted ==> r.log != [] && r.log[|r.log| - 1] == Code(OutputLocked))
      && ((forall i :: 0 <= i < |ticks| ==> ticks[i].Unlocks(false)) &&
          LongEnough(Shape(cfg, prm), if ticks == [] then 0 else ticks[0].now, ticks) ==>
            r.status == Completed)
  {
    var s := Shape(cfg, prm);
    PulseRunOutcome(s, c, ticks);
    if (forall i :: 0 <= i < |ticks| ==> ticks[i].Unlocks(false)) &&
       LongEnough(s, if ticks == [] then 0 else ticks[0].now, ticks) {
      PulseRunCompletes(s, c, ticks);
    }
  }

  class SpeakerModule {
    const cfg: SpeakerConfig
    var params: SpeakerParams
    var ctx: Context

    constructor (cfg: SpeakerConfig, ctx: Context)
      ensures this.cfg == cfg && params == Defaults && this.ctx == ctx
    {
      this.cfg := cfg;
      params := Defaults;
      this.ctx := ctx;
    }

    /** The received parameter record overwrites the current one wholesale. */
    method SetCustomParameters(p: SpeakerParams) returns (ok: bool)
      modifies this`params
      ensures ok && params == p
    {
      params := p;
      ok := true;
    }

    /** Drives the pin to its start level, reports it and restores the default parameters. */
    method SetupModule() returns (ok: bool)
      modifies this`ctx, this`params
      ensures ok && params == Defaults
      ensures cfg.startOff ==> ctx == old(ctx).WriteFast(cfg.pin, Digital(LOW)).SendData(Code(Off))
      ensures !cfg.startOff ==> ctx == old(ctx).WriteFast(cfg.pin, Digital(HIGH)).SendData(Code(On))
    {
      if cfg.startOff {
        ctx := ctx.WriteFast(cfg.pin, Digital(LOW));
        ctx := ctx.SendData(Code(Off));
      } else {
        ctx := ctx.WriteFast(cfg.pin, Digital(HIGH));
        ctx := ctx.SendData(Code(On));
      }
      params := Defaults;
      ok := true;
    }

    method RunActiveCommand(now: int) returns (handled: bool)
      modifies this`ctx
      ensures handled <==> 1 <= old(ctx.command) <= 3
      ensures old(ctx.command) == SendPulse ==> ctx == PulseTick(Shape(cfg, params), old(ctx), now)
      ensures old(ctx.command) == ToggleOn ==>
                ctx == SetOutput(old(ctx), cfg.pin, Digital(HIGH), false, [Code(On)])
      ensures old(ctx.command) == ToggleOff ==>
                ctx == SetOutput(old(ctx), cfg.pin, Digital(LOW), false, [Code(Off)])
      ensures !handled ==> ctx == old(ctx)
    {
      var command := ctx.command;
      if command == SendPulse {
        Pulse(now);
        handled := true;
      } else if command == ToggleOn {
        Open();
        handled := true;
      } else if command == ToggleOff {
        Close();
        handled := true;
      } else {
        handled := false;
      }
    }

    method Pulse(now: int)
      modifies this`ctx
      ensures ctx == PulseTick(Shape(cfg, params), old(ctx), now)
    {
      WriteAllFastSingle(ctx, cfg.pin, Digital(HIGH));
      if ctx.stage == 1 {
        var written := ctx.Unlocked(false);
        ctx := ctx.DigitalWrite(cfg.pin, HIGH, false);
        if written {
          ctx := ctx.SendData(Code(On));
          ctx := ctx.AdvanceCommandStage(now);
        } else {
          ctx := ctx.SendData(Code(OutputLocked));
          ctx := ctx.AbortCommand();
          return;
        }
      }
      if ctx.stage == 2 {
        if !ctx.WaitForMicros(now, params.pulseDuration) {
          return;
        }
        ctx := ctx.AdvanceCommandStage(now);
      }
      if ctx.stage == 3 {
        WriteAllFastSingle(ctx, cfg.pin, Digital(LOW));
        var written := ctx.Unlocked(false);
        ctx := ctx.DigitalWrite(cfg.pin, LOW, false);
        if written {
          ctx := ctx.SendData(Code(Off));
          ctx := ctx.CompleteCommand();
        } else {
          ctx := ctx.SendData(Code(OutputLocked));
          ctx := ctx.AbortCommand();
        }
      }
    }

    method Open()
      modifies this`ctx
      ensures ctx == SetOutput(old(ctx), cfg.pin, Digital(HIGH), false, [Code(On)])
    {
      var written := ctx.Unlocked(false);
      ctx := ctx.DigitalWrite(cfg.pin, HIGH, false);
      if written {
        ctx := ctx.SendData(Code(On));
        ctx := ctx.CompleteCommand();
      } else {
        ctx := ctx.SendData(Code(OutputLocked));
        ctx := ctx.AbortCommand();
      }
    }

    method Close()
      modifies this`ctx
      ensures ctx == SetOutput(old(ctx), cfg.pin, Digital(LOW), false, [Code(Off)])
    {
      var written := ctx.Unlocked(false);
      ctx := ctx.DigitalWrite(cfg.pin, LOW, false);
      if written {
        ctx := ctx.SendData(Code(Off));
        ctx := ctx.CompleteCommand();
      } else {
        ctx := ctx.SendData(Code(OutputLocked));
        ctx := ctx.AbortCommand();
      }
    }
  }
}

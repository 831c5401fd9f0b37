/**
 * The screen driver (ScreenModule): three logic gates, one per VR screen, that are briefly
 * activated together to emulate a press of each screen's power button.
 */
module Screen {
  import opened Runtime
  import opened Sequencer

  // Status codes sent to the PC.
  const On: Byte := 52
  const Off: Byte := 53

  // Command code.
  const Toggle: Byte := 1

  /** The template arguments: the three gate pins and the gates' polarity. */
  datatype ScreenConfig = ScreenConfig(left: Byte, center: Byte, right: Byte, normallyClosed: bool)

  datatype ScreenParams = ScreenParams(pulseDuration: Uint32)

  const Defaults := ScreenParams(1000000)

  /** The level that lets current through the gate. */
  function OnLevel(normallyClosed: bool): bool
  {
    if normallyClosed then HIGH else LOW
  }

  /** The level that stops current through the gate. */
  function OffLevel(normallyClosed: bool): bool
  {
    if normallyClosed then LOW else HIGH
  }

  /** The two levels are opposite, and a normally closed gate is activated by HIGH. */
  lemma GatePolarity(normallyClosed: bool)
    ensures OnLevel(normallyClosed) != OffLevel(normallyClosed)
    ensures OnLevel(normallyClosed) == HIGH <==> normallyClosed
  {
  }

  function Pins(cfg: ScreenConfig): seq<Byte>
  {
    [cfg.left, cfg.center, cfg.right]
  }

  /** Toggle: all three gates on, wait pulse_duration, all off, on the actor lock. */
  function Shape(cfg: ScreenConfig, prm: ScreenParams): PulseShape
  {
    PulseShape(Pins(cfg), OnLevel(cfg.normallyClosed), OffLevel(cfg.normallyClosed),
               prm.pulseDuration, false, [Code(On)], [Code(Off)])
  }

  /**
   * A toggle issued at c ends, if it completes, with On then Off sent, the pins written on in
   * the order left, center, right and then off in the same order, and every gate off; if it
   * aborts, the last message is OutputLocked. With the actor lock released throughout and the
   * last tick pulse_duration after the first, it completes.
   */
  lemma {:induction false} ToggleIsPulse(cfg: ScreenConfig, prm: ScreenParams, c: Context, ticks: seq<Tick>)
    requires c.stage == 1 && c.status == Running
    ensures var r := PulseRun(Shape(cfg, prm), c, ticks);
      var on := Digital(OnLevel(cfg.normallyClosed));
      var off := Digital(OffLevel(cfg.normallyClosed));
      && (r.status == Completed ==>
            && r.log == c.log + [Code(On), Code(Off)]
            && r.writes == c.writes + [PinWrite(cfg.left, on), PinWrite(cfg.center, on), PinWrite(cfg.right, on),
                                       PinWrite(cfg.left, off), PinWrite(cfg.center, off), PinWrite(cfg.right, off)]
            && cfg.left in r.pins && cfg.center in r.pins && cfg.right in r.pins
            && r.pins[cfg.left] == off && r.pins[cfg.center] == off && r.pins[cfg.right] == off)
      && (r.status == Aborted ==> r.log != [] && r.log[|r.log| - 1] == Code(OutputLocked))
      && ((forall i :: 0 <= i < |ticks| ==> ticks[i].Unlocks(false)) &&
          LongEnough(Shape(cfg, prm), if ticks == [] then 0 else ticks[0].now, ticks) ==>
            r.status == Completed)
  {
    var s := Shape(cfg, prm);
    PulseRunOutcome(s, c, ticks);
    var on := Digital(OnLevel(cfg.normallyClosed));
    var off := Digital(OffLevel(cfg.normallyClosed));
    assert WriteList(s.pins, on) == [PinWrite(cfg.left, on), PinWrite(cfg.center, on), PinWrite(cfg.right, on)];
    assert WriteList(s.pins, off) == [PinWrite(cfg.left, off), PinWrite(cfg.center, off), PinWrite(cfg.right, off)];
    if (forall i :: 0 <= i < |ticks| ==> ticks[i].Unlocks(false)) &&
       LongEnough(s, if ticks == [] then 0 else ticks[0].now, ticks) {
      PulseRunCompletes(s, c, ticks);
    }
  }

  /** Writing the three pins one after the other is WriteAllFast over the pin list. */
  lemma WriteThree(c: Context, cfg: ScreenConfig, out: Output)
    ensures c.WriteAllFast(Pins(cfg), out) ==
            c.WriteFast(cfg.left, out).WriteFast(cfg.center, out).WriteFast(cfg.right, out)
  {
    var ps := Pins(cfg);
    assert ps[1..] == [cfg.center, cfg.right];
    assert ps[1..][1..] == [cfg.right];
    WriteAllFastSingle(c.WriteFast(cfg.left, out).WriteFast(cfg.center, out), cfg.right, out);
  }

  class ScreenModule {
    const cfg: ScreenConfig
    var params: ScreenParams
    var ctx: Context

    constructor (cfg: ScreenConfig, ctx: Context)
      ensures this.cfg == cfg && params == Defaults && this.ctx == ctx
    {
      this.cfg := cfg;
      params := Defaults;
      this.ctx := ctx;
    }

    method SetCustomParameters(p: ScreenParams) returns (ok: bool)
      modifies this`params
      ensures ok && params == p
    {
      params := p;
      ok := true;
    }

    /** All three gates are driven off, Off is reported and the defaults are restored. */
    method SetupModule() returns (ok: bool)
      modifies this`ctx, this`params
      ensures ok && params == Defaults
      ensures ctx == old(ctx).WriteAllFast(Pins(cfg), Digital(OffLevel(cfg.normallyClosed))).SendData(Code(Off))
    {
      var off := OffLevel(cfg.normallyClosed);
      WriteThree(ctx, cfg, Digital(off));
      ctx := ctx.WriteFast(cfg.left, Digital(off));
      ctx := ctx.WriteFast(cfg.center, Digital(off));
      ctx := ctx.WriteFast(cfg.right, Digital(off));
      ctx := ctx.SendData(Code(Off));
      params := Defaults;
      ok := true;
    }

    method RunActiveCommand(now: int) returns (handled: bool)
      modifies this`ctx
      ensures handled <==> old(ctx.command) == Toggle
      ensures handled ==> ctx == PulseTick(Shape(cfg, params), old(ctx), now)
      ensures !handled ==> ctx == old(ctx)
    {
      if ctx.command == Toggle {
        TogglePins(now);
        handled := true;
      } else {
        handled := false;
      }
    }

    /** The Toggle command; a refused write stops the remaining writes of its stage. */
    method TogglePins(now: int)
      modifies this`ctx
      ensures ctx == PulseTick(Shape(cfg, params), old(ctx), now)
    {
      var on := OnLevel(cfg.normallyClosed);
      var off := OffLevel(cfg.normallyClosed);
      if ctx.stage == 1 {
        WriteThree(ctx, cfg, Digital(on));
        var state := ctx.Unlocked(false);
        ctx := ctx.DigitalWrite(cfg.left, on, false);
        if state {
          state := ctx.Unlocked(false);
          ctx := ctx.DigitalWrite(cfg.center, on, false);
        }
        if state {
          state := ctx.Unlocked(false);
          ctx := ctx.DigitalWrite(cfg.right, on, false);
        }
        if state {
          ctx := ctx.SendData(Code(On));
          ctx := ctx.AdvanceCommandStage(now);
        } else {
          ctx := ctx.SendData(Code(OutputLocked));
          ctx := ctx.AbortCommand();
          return;
        }
      }
      if ctx.stage == 2 {
        if !ctx.WaitForMicros(now, params.pulseDuration) {
          return;
        }
        ctx := ctx.AdvanceCommandStage(now);
      }
      if ctx.stage == 3 {
        WriteThree(ctx, cfg, Digital(off));
        var state := ctx.Unlocked(false);
        ctx := ctx.DigitalWrite(cfg.left, off, false);
        if state {
          state := ctx.Unlocked(false);
          ctx := ctx.DigitalWrite(cfg.center, off, false);
        }
        if state {
          state := ctx.Unlocked(false);
          ctx := ctx.DigitalWrite(cfg.right, off, false);
        }
        if state {
          ctx := ctx.SendData(Code(Off));
          ctx := ctx.CompleteCommand();
        } else {
          ctx := ctx.SendData(Code(OutputLocked));
          ctx := ctx.AbortCommand();
        }
      }
    }
  }
}

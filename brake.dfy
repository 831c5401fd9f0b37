/**
 * The brake driver (BreakModule): a FET-gated relay on one PWM-capable pin that engages the
 * brake fully, releases it, or engages it for a share of each PWM period. A normally engaged
 * brake is engaged while unpowered, a normally disengaged one while powered.
 */
module Brake {
  import opened Runtime
  import opened Sequencer

  // Command codes.
  const ToggleOn: Byte := 1
  const ToggleOff: Byte := 2
  const SetBreakingPower: Byte := 3

  /** The template arguments: the relay pin, the brake type and the start state. */
  datatype BrakeConfig = BrakeConfig(pin: Byte, normallyEngaged: bool, startEngaged: bool)

  datatype BrakeParams = BrakeParams(breakingStrength: Byte)

  const Defaults := BrakeParams(128)

  /** The level SetupModule drives for the requested start state. */
  function SetupLevel(normallyEngaged: bool, engaged: bool): bool
  {
    if engaged then (if normallyEngaged then LOW else HIGH)
    else (if normallyEngaged then HIGH else LOW)
  }

  /** The level EnableBreak drives. */
  function EngageLevel(normallyEngaged: bool): bool
  {
    if normallyEngaged then HIGH else LOW
  }

  /** The level DisableBreak drives. */
  function DisengageLevel(normallyEngaged: bool): bool
  {
    if normallyEngaged then LOW else HIGH
  }

  /** The PWM duty SetBreakingPower drives for a breaking strength. */
  function Duty(normallyEngaged: bool, strength: Byte): Byte
  {
    if normallyEngaged then 255 - strength else strength
  }

  /**
   * SetupModule's two start levels are opposite; a normally engaged brake is engaged by LOW
   * (unpowered), a normally disengaged one by HIGH (powered).
   */
  lemma SetupPolarity(normallyEngaged: bool)
    ensures SetupLevel(normallyEngaged, true) != SetupLevel(normallyEngaged, false)
    ensures SetupLevel(normallyEngaged, true) == HIGH <==> !normallyEngaged
  {
  }

  /**
   * The breaking strength is the share of the PWM period spent at the level SetupModule uses
   * for an engaged brake: full strength is that level constantly, zero strength the opposite
   * one, and a greater strength never means less engagement.
   */
  lemma DutyMatchesSetup(normallyEngaged: bool, s: Byte, t: Byte)
    ensures Duty(normallyEngaged, 255) == (if SetupLevel(normallyEngaged, true) then 255 else 0)
    ensures Duty(normallyEngaged, 0) == (if SetupLevel(normallyEngaged, false) then 255 else 0)
    ensures var engagedTime := (if SetupLevel(normallyEngaged, true) then Duty(normallyEngaged, s)
                                else 255 - Duty(normallyEngaged, s));
            engagedTime == s
    ensures s <= t ==> (if normallyEngaged then Duty(normallyEngaged, t) <= Duty(normallyEngaged, s)
                        else Duty(normallyEngaged, s) <= Duty(normallyEngaged, t))
  {
  }

  /**
   * As written, EnableBreak drives the level SetupModule uses for a DISENGAGED brake and
   * DisableBreak the level it uses for an engaged one, for both brake types.
   */
  lemma EnableUsesSetupsReleaseLevel(normallyEngaged: bool)
    ensures EngageLevel(normallyEngaged) == SetupLevel(normallyEngaged, false)
    ensures DisengageLevel(normallyEngaged) == SetupLevel(normallyEngaged, true)
    ensures EngageLevel(normallyEngaged) != DisengageLevel(normallyEngaged)
  {
  }

  /** Every brake command sends nothing on success and exactly OutputLocked on refusal. */
  lemma {:induction false} BrakeCommandOutcome(cfg: BrakeConfig, prm: BrakeParams, c: Context)
    ensures var e := SetOutput(c, cfg.pin, Digital(EngageLevel(cfg.normallyEngaged)), false, []);
      var p := SetOutput(c, cfg.pin, Pwm(Duty(cfg.normallyEngaged, prm.breakingStrength)), false, []);
      && (c.Unlocked(false) ==>
            && e.status == Completed && e.log == c.log
            && e.pins == c.pins[cfg.pin := Digital(EngageLevel(cfg.normallyEngaged))]
            && p.status == Completed && p.log == c.log
            && p.pins == c.pins[cfg.pin := Pwm(Duty(cfg.normallyEngaged, prm.breakingStrength))])
      && (!c.Unlocked(false) ==>
            && e.status == Aborted && e.pins == c.pins && e.log == c.log + [Code(OutputLocked)]
            && p.status == Aborted && p.pins == c.pins && p.log == c.log + [Code(OutputLocked)])
  {
    SetOutputOutcome(c, cfg.pin, Digital(EngageLevel(cfg.normallyEngaged)), false, []);
    SetOutputOutcome(c, cfg.pin, Pwm(Duty(cfg.normallyEngaged, prm.breakingStrength)), false, []);
    assert c.log + [] == c.log;
  }

  class BrakeModule {
    const cfg: BrakeConfig
    var params: BrakeParams
    var ctx: Context

    constructor (cfg: BrakeConfig, ctx: Context)
      ensures this.cfg == cfg && params == Defaults && this.ctx == ctx
    {
      this.cfg := cfg;
      params := Defaults;
      this.ctx := ctx;
    }

    method SetCustomParameters(p: BrakeParams) returns (ok: bool)
      modifies this`params
      ensures ok && params == p
    {
      params := p;
      ok := true;
    }

    /** The pin is driven to the start level; no message is sent. */
    method SetupModule() returns (ok: bool)
      modifies this`ctx, this`params
      ensures ok && params == Defaults
      ensures ctx == old(ctx).WriteFast(cfg.pin, Digital(SetupLevel(cfg.normallyEngaged, cfg.startEngaged)))
    {
      if cfg.startEngaged {
        ctx := ctx.WriteFast(cfg.pin, Digital(if cfg.normallyEngaged then LOW else HIGH));
      } else {
        ctx := ctx.WriteFast(cfg.pin, Digital(if cfg.normallyEngaged then HIGH else LOW));
      }
      params := Defaults;
      ok := true;
    }

    method RunActiveCommand() returns (handled: bool)
      modifies this`ctx
      ensures handled <==> 1 <= old(ctx.command) <= 3
      ensures old(ctx.command) == ToggleOn ==>
                ctx == SetOutput(old(ctx), cfg.pin, Digital(EngageLevel(cfg.normallyEngaged)), false, [])
      ensures old(ctx.command) == ToggleOff ==>
                ctx == SetOutput(old(ctx), cfg.pin, Digital(DisengageLevel(cfg.normallyEngaged)), false, [])
      ensures old(ctx.command) == SetBreakingPower ==>
                ctx == SetOutput(old(ctx), cfg.pin, Pwm(Duty(cfg.normallyEngaged, params.breakingStrength)), false, [])
      ensures !handled ==> ctx == old(ctx)
    {
      var command := ctx.command;
      if command == ToggleOn {
        EnableBreak();
        handled := true;
      } else if command == ToggleOff {
        DisableBreak();
        handled := true;
      } else if command == SetBreakingPower {
        SetPower();
        handled := true;
      } else {
        handled := false;
      }
    }

    method EnableBreak()
      modifies this`ctx
      ensures ctx == SetOutput(old(ctx), cfg.pin, Digital(EngageLevel(cfg.normallyEngaged)), false, [])
    {
      var written := ctx.Unlocked(false);
      ctx := ctx.DigitalWrite(cfg.pin, EngageLevel(cfg.normallyEngaged), false);
      if written {
        assert ctx.SendAll([]) == ctx;
        ctx := ctx.CompleteCommand();
      } else {
        ctx := ctx.SendData(Code(OutputLocked));
        ctx := ctx.AbortCommand();
      }
    }

    method DisableBreak()
      modifies this`ctx
      ensures ctx == SetOutput(old(ctx), cfg.pin, Digital(DisengageLevel(cfg.normallyEngaged)), false, [])
    {
      var written := ctx.Unlocked(false);
      ctx := ctx.DigitalWrite(cfg.pin, DisengageLevel(cfg.normallyEngaged), false);
      if written {
        assert ctx.SendAll([]) == ctx;
        ctx := ctx.CompleteCommand();
      } else {
        ctx := ctx.SendData(Code(OutputLocked));
        ctx := ctx.AbortCommand();
      }
    }

    /** The SetBreakingPower command. */
    method SetPower()
      modifies this`ctx
      ensures ctx == SetOutput(old(ctx), cfg.pin, Pwm(Duty(cfg.normallyEngaged, params.breakingStrength)), false, [])
    {
      var value: Byte := params.breakingStrength;
      if cfg.normallyEngaged {
        value := 255 - value;
      }
      var written := ctx.Unlocked(false);
      ctx := ctx.AnalogWrite(cfg.pin, value, false);
      if written {
        assert ctx.SendAll([]) == ctx;
        ctx := ctx.CompleteCommand();
      } else {
        ctx := ctx.SendData(Code(OutputLocked));
        ctx := ctx.AbortCommand();
      }
    }
  }
}

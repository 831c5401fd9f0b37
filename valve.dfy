/**
 * The fluid valve driver (ValveModule): a solenoid valve on one pin, opened for a precise
 * time to deliver a volume of fluid, and optionally a buzzer on a second pin that sounds
 * while the valve delivers (pin 255 means no buzzer is wired).
 */
module Valve {
  import opened Runtime
  import opened Sequencer

  // Status codes sent to the PC.
  const Open: Byte := 52
  const Closed: Byte := 53
  const Calibrated: Byte := 54
  const ToneOn: Byte := 55
  const ToneOff: Byte := 56
  const TonePinNotSet: Byte := 57

  // Command codes.
  const SendPulse: Byte := 1
  const ToggleOn: Byte := 2
  const ToggleOff: Byte := 3
  const Calibrate: Byte := 4
  const TonePulse: Byte := 5

  /** The tone pin value that means no buzzer is wired. */
  const NoTonePin: Byte := 255

  /** The template arguments: the valve pin, its polarity, its start state and the buzzer pin. */
  datatype ValveConfig = ValveConfig(pin: Byte, normallyClosed: bool, startClosed: bool, tonePin: Byte)

  datatype ValveParams = ValveParams(
    pulseDuration: Uint32,
    calibrationDelay: Uint32,
    calibrationCount: Uint16,
    toneDuration: Uint32)

  const Defaults := ValveParams(35590, 200000, 500, 300000)

  /** The level that opens the valve. */
  function OpenLevel(normallyClosed: bool): bool
  {
    if normallyClosed then HIGH else LOW
  }

  /** The level that closes the valve. */
  function CloseLevel(normallyClosed: bool): bool
  {
    if normallyClosed then LOW else HIGH
  }

  /** The two levels are opposite, and a normally closed valve is opened by powering it. */
  lemma ValvePolarity(normallyClosed: bool)
    ensures OpenLevel(normallyClosed) != CloseLevel(normallyClosed)
    ensures OpenLevel(normallyClosed) == HIGH <==> normallyClosed
  {
  }

  function OpenOut(cfg: ValveConfig): Output { Digital(OpenLevel(cfg.normallyClosed)) }

  function CloseOut(cfg: ValveConfig): Output { Digital(CloseLevel(cfg.normallyClosed)) }

  // ---------------------------------------------------------------------------------------
  // Pulse: open, wait pulse_duration, close; with a buzzer, also sound it from the opening
  // until the remaining tone duration has passed after the closing.
  // ---------------------------------------------------------------------------------------

  /** Stage 1: open the valve (and start the buzzer), or report the lock and abort. */
  function PulseOpen(cfg: ValveConfig, c: Context, now: int): Context
  {
    if c.stage != 1 then c
    else if c.Unlocked(false) then
      var valveOpen := c.WriteFast(cfg.pin, OpenOut(cfg)).SendData(Code(Open));
      var sounding := if cfg.tonePin != NoTonePin then
                        valveOpen.WriteFast(cfg.tonePin, Digital(HIGH)).SendData(Code(ToneOn))
                      else valveOpen;
      sounding.AdvanceCommandStage(now)
    else Refused(c)
  }

  /** Stage 2: keep the valve open for pulse_duration. */
  function PulseHold(prm: ValveParams, c: Context, now: int): Context
  {
    if c.stage == 2 && c.WaitForMicros(now, prm.pulseDuration) then c.AdvanceCommandStage(now) else c
  }

  /** Stage 3: close the valve; finish, or move on to the buzzer's remaining time. */
  function PulseClose(cfg: ValveConfig, c: Context, now: int): Context
  {
    if c.stage != 3 then c
    else if c.Unlocked(false) then
      var closed := c.WriteFast(cfg.pin, CloseOut(cfg)).SendData(Code(Closed));
      if cfg.tonePin == NoTonePin then closed.CompleteCommand() else closed.AdvanceCommandStage(now)
    else Refused(c)
  }

  /** The remaining tone time, computed in unsigned 32-bit arithmetic as the firmware does. */
  function ToneWait(prm: ValveParams): Uint32
  {
    (prm.toneDuration - prm.pulseDuration) % 0x1_0000_0000
  }

  /** Stage 4: keep the buzzer sounding for the remaining tone time. */
  function ToneHold(prm: ValveParams, c: Context, now: int): Context
  {
    if c.stage == 4 && c.WaitForMicros(now, ToneWait(prm)) then c.AdvanceCommandStage(now) else c
  }

  /** Stage 5: silence the buzzer with a plain write and finish. */
  function ToneStop(cfg: ValveConfig, c: Context): Context
  {
    if c.stage != 5 then c
    else c.WriteFast(cfg.tonePin, Digital(LOW)).SendData(Code(ToneOff)).CompleteCommand()
  }

  /** One re-entry of the Pulse command. */
  function ValvePulseTick(cfg: ValveConfig, prm: ValveParams, c: Context, now: int): Context
  {
    ToneStop(cfg, ToneHold(prm, PulseClose(cfg, PulseHold(prm, PulseOpen(cfg, c, now), now), now), now))
  }

  /** The Pulse command re-entered once per tick until it completes or aborts. */
  function ValvePulseRun(cfg: ValveConfig, prm: ValveParams, c: Context, ticks: seq<Tick>): Context
    decreases |ticks|
  {
    if ticks == [] || c.status != Running then c
    else ValvePulseRun(cfg, prm, ValvePulseTick(cfg, prm, Enter(c, ticks[0]), ticks[0].now), ticks[1..])
  }

  /** Without a buzzer, Pulse is the shared three-stage pulse reporting Open and Closed. */
  function Shape(cfg: ValveConfig, prm: ValveParams): PulseShape
  {
    PulseShape([cfg.pin], OpenLevel(cfg.normallyClosed), CloseLevel(cfg.normallyClosed),
               prm.pulseDuration, false, [Code(Open)], [Code(Closed)])
  }

  lemma NoToneOpenIsActivate(cfg: ValveConfig, prm: ValveParams, c: Context, now: int)
    requires cfg.tonePin == NoTonePin
    ensures PulseOpen(cfg, c, now) == Activate(Shape(cfg, prm), c, now)
  {
    WriteAllFastSingle(c, cfg.pin, OpenOut(cfg));
  }

  lemma NoToneCloseIsRelease(cfg: ValveConfig, prm: ValveParams, c: Context, now: int)
    requires cfg.tonePin == NoTonePin
    ensures PulseClose(cfg, c, now) == Release(Shape(cfg, prm), c)
  {
    WriteAllFastSingle(c, cfg.pin, CloseOut(cfg));
  }

  lemma NoToneTickIsPulse(cfg: ValveConfig, prm: ValveParams, c: Context, now: int)
    requires cfg.tonePin == NoTonePin && c.stage <= 3
    ensures ValvePulseTick(cfg, prm, c, now) == PulseTick(Shape(cfg, prm), c, now)
    ensures ValvePulseTick(cfg, prm, c, now).stage <= 3
  {
    var s := Shape(cfg, prm);
    NoToneOpenIsActivate(cfg, prm, c, now);
    var h := Hold(s, Activate(s, c, now), now);
    assert PulseHold(prm, Activate(s, c, now), now) == h;
    NoToneCloseIsRelease(cfg, prm, h, now);
    var r := Release(s, h);
    assert r.stage <= 3;
    assert ToneStop(cfg, ToneHold(prm, r, now)) == r;
  }

  lemma {:induction false} NoToneRunIsPulse(cfg: ValveConfig, prm: ValveParams, c: Context, ticks: seq<Tick>)
    requires cfg.tonePin == NoTonePin && c.stage <= 3
    ensures ValvePulseRun(cfg, prm, c, ticks) == PulseRun(Shape(cfg, prm), c, ticks)
    decreases |ticks|
  {
    if ticks != [] && c.status == Running {
      NoToneTickIsPulse(cfg, prm, Enter(c, ticks[0]), ticks[0].now);
      NoToneRunIsPulse(cfg, prm, ValvePulseTick(cfg, prm, Enter(c, ticks[0]), ticks[0].now), ticks[1..]);
    }
  }

  /**
   * Without a buzzer, a pulse issued at c ends, if it completes, with Open then Closed sent,
   * the valve written open then closed and left closed, and no other pin touched; if it
   * aborts, the last message is OutputLocked. With the actor lock released throughout and
   * the last tick pulse_duration after the first, it completes.
   */
  lemma {:induction false} PulseWithoutTone(cfg: ValveConfig, prm: ValveParams, c: Context, ticks: seq<Tick>)
    requires cfg.tonePin == NoTonePin && c.stage == 1 && c.status == Running
    ensures var r := ValvePulseRun(cfg, prm, c, ticks);
      && (r.status == Completed ==>
            && r.log == c.log + [Code(Open), Code(Closed)]
            && r.writes == c.writes + [PinWrite(cfg.pin, OpenOut(cfg)), PinWrite(cfg.pin, CloseOut(cfg))]
            && cfg.pin in r.pins && r.pins[cfg.pin] == CloseOut(cfg))
      && (r.status == Aborted ==> r.log != [] && r.log[|r.log| - 1] == Code(OutputLocked))
      && (forall p :: p != cfg.pin && p in c.pins ==> p in r.pins && r.pins[p] == c.pins[p])
      && ((forall i :: 0 <= i < |ticks| ==> ticks[i].Unlocks(false)) &&
          LongEnough(Shape(cfg, prm), if ticks == [] then 0 else ticks[0].now, ticks) ==>
            r.status == Completed)
  {
    var s := Shape(cfg, prm);
    NoToneRunIsPulse(cfg, prm, c, ticks);
    PulseRunOutcome(s, c, ticks);
    if (forall i :: 0 <= i < |ticks| ==> ticks[i].Unlocks(false)) &&
       LongEnough(s, if ticks == [] then 0 else ticks[0].now, ticks) {
      PulseRunCompletes(s, c, ticks);
    }
  }

  /**
   * Where a pulse with a buzzer that started from c0 can be. The writes and pins are tracked
   * exactly: open and buzzer on (stages 2 and 3), then closed (stages 4 and 5), then buzzer
   * off (completed). An abort can only follow a refused opening or a refused closing.
   */
  ghost predicate TonePulseProgress(cfg: ValveConfig, c0: Context, c: Context)
  {
    var w1 := c0.writes + [PinWrite(cfg.pin, OpenOut(cfg)), PinWrite(cfg.tonePin, Digital(HIGH))];
    var p1 := c0.pins[cfg.pin := OpenOut(cfg)][cfg.tonePin := Digital(HIGH)];
    var w2 := w1 + [PinWrite(cfg.pin, CloseOut(cfg))];
    var p2 := p1[cfg.pin := CloseOut(cfg)];
    var on := c0.log + [Code(Open), Code(ToneOn)];
    && c.command == c0.command
    && (c.status == Running ==>
          || (c.stage == 1 && c.log == c0.log && c.writes == c0.writes && c.pins == c0.pins)
          || ((c.stage == 2 || c.stage == 3) && c.log == on && c.writes == w1 && c.pins == p1)
          || ((c.stage == 4 || c.stage == 5) && c.log == on + [Code(Closed)] && c.writes == w2 && c.pins == p2))
    && (c.status == Completed ==>
          && c.stage == 5 && c.log == on + [Code(Closed), Code(ToneOff)]
          && c.writes == w2 + [PinWrite(cfg.tonePin, Digital(LOW))]
          && c.pins == p2[cfg.tonePin := Digital(LOW)])
    && (c.status == Aborted ==>
          || (c.stage == 1 && c.log == c0.log + [Code(OutputLocked)] && c.writes == c0.writes && c.pins == c0.pins)
          || (c.stage == 3 && c.log == on + [Code(OutputLocked)] && c.writes == w1 && c.pins == p1))
  }

  lemma ToneOpenStep(cfg: ValveConfig, c0: Context, c: Context, now: int)
    requires cfg.tonePin != NoTonePin
    requires TonePulseProgress(cfg, c0, c) && c.status == Running
    ensures var r := PulseOpen(cfg, c, now);
      TonePulseProgress(cfg, c0, r) && (r.status == Running || r.stage == 1)
  {
  }

  lemma ToneHoldStep(cfg: ValveConfig, prm: ValveParams, c0: Context, c: Context, now: int)
    requires TonePulseProgress(cfg, c0, c) && (c.status == Running || c.stage == 1)
    ensures var r := PulseHold(prm, c, now);
      TonePulseProgress(cfg, c0, r) && (r.status == Running || r.stage == 1)
  {
  }

  lemma ToneCloseStep(cfg: ValveConfig, c0: Context, c: Context, now: int)
    requires cfg.tonePin != NoTonePin
    requires TonePulseProgress(cfg, c0, c) && (c.status == Running || c.stage == 1)
    ensures var r := PulseClose(cfg, c, now);
      TonePulseProgress(cfg, c0, r) && (r.status == Running || r.stage <= 3)
  {
    if c.stage == 3 && c.Unlocked(false) {
      assert PulseClose(cfg, c, now).log == c0.log + [Code(Open), Code(ToneOn)] + [Code(Closed)];
    }
  }

  lemma ToneRemainStep(cfg: ValveConfig, prm: ValveParams, c0: Context, c: Context, now: int)
    requires TonePulseProgress(cfg, c0, c) && (c.status == Running || c.stage <= 3)
    ensures var r := ToneHold(prm, c, now);
      TonePulseProgress(cfg, c0, r) && (r.status == Running || r.stage <= 3)
  {
  }

  lemma ToneStopStep(cfg: ValveConfig, c0: Context, c: Context)
    requires TonePulseProgress(cfg, c0, c) && (c.status == Running || c.stage <= 3)
    ensures TonePulseProgress(cfg, c0, ToneStop(cfg, c))
  {
    if c.stage == 5 {
      assert c.log + [Code(ToneOff)] == c0.log + [Code(Open), Code(ToneOn)] + [Code(Closed), Code(ToneOff)];
    }
  }

  lemma TonePulseTickProgress(cfg: ValveConfig, prm: ValveParams, c0: Context, c: Context, t: Tick)
    requires cfg.tonePin != NoTonePin
    requires TonePulseProgress(cfg, c0, c) && c.status == Running
    ensures TonePulseProgress(cfg, c0, ValvePulseTick(cfg, prm, Enter(c, t), t.now))
  {
    var e := Enter(c, t);
    ToneOpenStep(cfg, c0, e, t.now);
    var a := PulseOpen(cfg, e, t.now);
    ToneHoldStep(cfg, prm, c0, a, t.now);
    var h := PulseHold(prm, a, t.now);
    ToneCloseStep(cfg, c0, h, t.now);
    var d := PulseClose(cfg, h, t.now);
    ToneRemainStep(cfg, prm, c0, d, t.now);
    ToneStopStep(cfg, c0, ToneHold(prm, d, t.now));
  }

  lemma {:induction false} TonePulseRunProgress(cfg: ValveConfig, prm: ValveParams, c0: Context, c: Context,
                                                ticks: seq<Tick>)
    requires cfg.tonePin != NoTonePin
    requires TonePulseProgress(cfg, c0, c)
    ensures TonePulseProgress(cfg, c0, ValvePulseRun(cfg, prm, c, ticks))
    decreases |ticks|
  {
    if ticks != [] && c.status == Running {
      TonePulseTickProgress(cfg, prm, c0, c, ticks[0]);
      TonePulseRunProgress(cfg, prm, c0, ValvePulseTick(cfg, prm, Enter(c, ticks[0]), ticks[0].now), ticks[1..]);
    }
  }

  /**
   * With a buzzer, whatever the clock and the locks do, a pulse issued at c completes with
   * exactly Open, ToneOn, Closed, ToneOff sent and the buzzer silenced, or aborts after one
   * OutputLocked report. A closing the lock refuses leaves the valve open and the buzzer
   * sounding: stage 5 is never reached.
   */
  lemma TonePulseOutcome(cfg: ValveConfig, prm: ValveParams, c: Context, ticks: seq<Tick>)
    requires cfg.tonePin != NoTonePin && c.stage == 1 && c.status == Running
    ensures var r := ValvePulseRun(cfg, prm, c, ticks);
      && (r.status == Completed ==>
            && r.log == c.log + [Code(Open), Code(ToneOn), Code(Closed), Code(ToneOff)]
            && r.writes == c.writes + [PinWrite(cfg.pin, OpenOut(cfg)), PinWrite(cfg.tonePin, Digital(HIGH)),
                                       PinWrite(cfg.pin, CloseOut(cfg)), PinWrite(cfg.tonePin, Digital(LOW))]
            && cfg.tonePin in r.pins && r.pins[cfg.tonePin] == Digital(LOW)
            && (cfg.pin != cfg.tonePin ==> cfg.pin in r.pins && r.pins[cfg.pin] == CloseOut(cfg)))
      && (r.status == Aborted ==>
            || (r.log == c.log + [Code(OutputLocked)] && r.pins == c.pins)
            || (&& r.log == c.log + [Code(Open), Code(ToneOn), Code(OutputLocked)]
                && cfg.tonePin in r.pins && r.pins[cfg.tonePin] == Digital(HIGH)
                && (cfg.pin != cfg.tonePin ==> cfg.pin in r.pins && r.pins[cfg.pin] == OpenOut(cfg))))
  {
    TonePulseRunProgress(cfg, prm, c, c, ticks);
  }

  /**
   * The buzzer's remaining time is the tone duration minus the pulse duration when the tone
   * is the longer, and wraps around to more than 2^32 - pulse_duration microseconds (over an
   * hour for the default pulse) when it is the shorter.
   */
  lemma ToneWaitWraps(prm: ValveParams)
    ensures prm.toneDuration >= prm.pulseDuration ==> ToneWait(prm) == prm.toneDuration - prm.pulseDuration
    ensures prm.toneDuration < prm.pulseDuration ==>
              && ToneWait(prm) == 0x1_0000_0000 - (prm.pulseDuration - prm.toneDuration)
              && ToneWait(prm) >= 0x1_0000_0000 - prm.pulseDuration
  {
  }

  /** While the remaining tone time runs, re-entering the pulse changes nothing. */
  lemma ToneWaitIsSilent(cfg: ValveConfig, prm: ValveParams, c: Context, now: int)
    requires c.stage == 4 && !c.WaitForMicros(now, ToneWait(prm))
    ensures ValvePulseTick(cfg, prm, c, now) == c
  {
  }

  /** While pulse_duration runs, re-entering the pulse changes nothing, with or without a buzzer. */
  lemma PulseWaitIsSilent(cfg: ValveConfig, prm: ValveParams, c: Context, now: int)
    requires c.stage == 2 && !c.WaitForMicros(now, prm.pulseDuration)
    ensures ValvePulseTick(cfg, prm, c, now) == c
  {
  }

  /** Tick j is the first of ticks whose time is at least d after start. */
  ghost predicate FirstReaching(ticks: seq<Tick>, start: int, d: int, j: int)
  {
    && 0 <= j < |ticks|
    && ticks[j].now - start >= d
    && forall i :: 0 <= i < j ==> ticks[i].now - start < d
  }

  /** From stage 4, the buzzer is silenced and the pulse completes once the remaining tone time has passed. */
  lemma {:induction false} ToneRemainThenStop(cfg: ValveConfig, prm: ValveParams, c: Context, ticks: seq<Tick>)
    requires c.stage == 4 && c.status == Running
    requires ticks != [] && ticks[|ticks| - 1].now - c.stageStart >= ToneWait(prm)
    ensures ValvePulseRun(cfg, prm, c, ticks).status == Completed
    decreases |ticks|
  {
    var e := Enter(c, ticks[0]);
    if !e.WaitForMicros(ticks[0].now, ToneWait(prm)) {
      ToneWaitIsSilent(cfg, prm, e, ticks[0].now);
      ToneRemainThenStop(cfg, prm, e, ticks[1..]);
    }
  }

  /**
   * From stage 2 with every tick unlocked: the first tick j at least pulse_duration after
   * the opening closes the valve, and a later tick at least ToneWait after tick j completes.
   */
  lemma {:induction false} HoldThenCloseWithTone(cfg: ValveConfig, prm: ValveParams, c: Context,
                                                 ticks: seq<Tick>, j: int)
    requires cfg.tonePin != NoTonePin && c.stage == 2 && c.status == Running
    requires forall i :: 0 <= i < |ticks| ==> ticks[i].Unlocks(false)
    requires FirstReaching(ticks, c.stageStart, prm.pulseDuration, j)
    requires ticks[|ticks| - 1].now - ticks[j].now >= ToneWait(prm)
    ensures ValvePulseRun(cfg, prm, c, ticks).status == Completed
    decreases |ticks|
  {
    var now := ticks[0].now;
    var e := Enter(c, ticks[0]);
    if j == 0 {
      var d := PulseClose(cfg, PulseHold(prm, e, now), now);
      assert d.stage == 4 && d.status == Running && d.stageStart == now;
      assert ValvePulseTick(cfg, prm, e, now) == ValvePulseTick(cfg, prm, Enter(d, ticks[0]), now);
      ToneRemainThenStop(cfg, prm, d, ticks);
    } else {
      PulseWaitIsSilent(cfg, prm, e, now);
      assert FirstReaching(ticks[1..], e.stageStart, prm.pulseDuration, j - 1);
      HoldThenCloseWithTone(cfg, prm, e, ticks[1..], j - 1);
    }
  }

  /**
   * With a buzzer and the lock released on every tick, a pulse completes, having sent exactly
   * Open, ToneOn, Closed and ToneOff, provided some tick j is the first at least pulse_duration
   * after the first tick and the last tick is at least the remaining tone time after tick j.
   */
  lemma TonePulseCompletes(cfg: ValveConfig, prm: ValveParams, c: Context, ticks: seq<Tick>, j: int)
    requires cfg.tonePin != NoTonePin && c.stage == 1 && c.status == Running
    requires forall i :: 0 <= i < |ticks| ==> ticks[i].Unlocks(false)
    requires ticks != [] && FirstReaching(ticks, ticks[0].now, prm.pulseDuration, j)
    requires ticks[|ticks| - 1].now - ticks[j].now >= ToneWait(prm)
    ensures var r := ValvePulseRun(cfg, prm, c, ticks);
      && r.status == Completed
      && r.log == c.log + [Code(Open), Code(ToneOn), Code(Closed), Code(ToneOff)]
  {
    var now := ticks[0].now;
    var e := Enter(c, ticks[0]);
    var a := PulseOpen(cfg, e, now);
    assert a.stage == 2 && a.status == Running && a.stageStart == now;
    assert ValvePulseTick(cfg, prm, e, now) == ValvePulseTick(cfg, prm, Enter(a, ticks[0]), now);
    HoldThenCloseWithTone(cfg, prm, a, ticks, j);
    TonePulseOutcome(cfg, prm, c, ticks);
  }

  // ---------------------------------------------------------------------------------------
  // Calibrate: calibration_count blocking open/close cycles in one call.
  // ---------------------------------------------------------------------------------------

  /** The writes of n calibration cycles: open, close, open, close, ... */
  function CalibrationWrites(pin: Byte, open: Output, close: Output, n: nat): (r: seq<PinWrite>)
    ensures |r| == 2 * n
    ensures forall i :: 0 <= i < |r| ==> r[i] == PinWrite(pin, if i % 2 == 0 then open else close)
  {
    if n == 0 then [] else CalibrationWrites(pin, open, close, n - 1) + [PinWrite(pin, open), PinWrite(pin, close)]
  }

  /** What Calibrate does to the context. */
  function CalibrateEffect(cfg: ValveConfig, prm: ValveParams, c: Context): Context
  {
    if prm.calibrationCount > 0 && !c.Unlocked(false) then Refused(c)
    else
      c.(pins := if prm.calibrationCount == 0 then c.pins else c.pins[cfg.pin := CloseOut(cfg)],
         writes := c.writes + CalibrationWrites(cfg.pin, OpenOut(cfg), CloseOut(cfg), prm.calibrationCount))
       .SendData(Code(Calibrated)).CompleteCommand()
  }

  /**
   * With the actor lock released, Calibrate opens and closes the valve exactly
   * calibration_count times, leaves it closed when it pulsed at all, and reports Calibrated.
   * With the lock engaged, it reports OutputLocked without writing, except that a zero count
   * reports Calibrated without consulting the lock.
   */
  lemma CalibrateOutcome(cfg: ValveConfig, prm: ValveParams, c: Context)
    ensures var r := CalibrateEffect(cfg, prm, c);
      && (c.Unlocked(false) || prm.calibrationCount == 0 ==>
            && r.status == Completed && r.log == c.log + [Code(Calibrated)]
            && |r.writes| == |c.writes| + 2 * prm.calibrationCount
            && (forall i :: |c.writes| <= i < |r.writes| ==>
                  r.writes[i] == PinWrite(cfg.pin, if (i - |c.writes|) % 2 == 0 then OpenOut(cfg) else CloseOut(cfg)))
            && (prm.calibrationCount > 0 ==> cfg.pin in r.pins && r.pins[cfg.pin] == CloseOut(cfg)))
      && (!c.Unlocked(false) && prm.calibrationCount > 0 ==>
            && r.status == Aborted && r.log == c.log + [Code(OutputLocked)]
            && r.writes == c.writes && r.pins == c.pins)
  {
    var n := prm.calibrationCount;
    if c.Unlocked(false) || n == 0 {
      var ws := CalibrationWrites(cfg.pin, OpenOut(cfg), CloseOut(cfg), n);
      var r := CalibrateEffect(cfg, prm, c);
      assert r.writes == c.writes + ws;
      forall i | |c.writes| <= i < |r.writes|
        ensures r.writes[i] == PinWrite(cfg.pin, if (i - |c.writes|) % 2 == 0 then OpenOut(cfg) else CloseOut(cfg))
      {
        assert r.writes[i] == ws[i - |c.writes|];
      }
    }
  }

  // ---------------------------------------------------------------------------------------
  // Tone: sound the buzzer for tone_duration without touching the valve.
  // ---------------------------------------------------------------------------------------

  function ToneShape(cfg: ValveConfig, prm: ValveParams): PulseShape
  {
    PulseShape([cfg.tonePin], HIGH, LOW, prm.toneDuration, false, [Code(ToneOn)], [Code(ToneOff)])
  }

  /** The Tone command as written: the guard rejects a configured buzzer pin. */
  function ToneTickAsWritten(cfg: ValveConfig, prm: ValveParams, c: Context, now: int): Context
  {
    if cfg.tonePin != NoTonePin then c.SendData(Code(TonePinNotSet)).AbortCommand()
    else PulseTick(ToneShape(cfg, prm), c, now)
  }

  /** The Tone command with the guard rejecting a missing buzzer pin, as its message says. */
  function ToneTick(cfg: ValveConfig, prm: ValveParams, c: Context, now: int): Context
  {
    if cfg.tonePin == NoTonePin then c.SendData(Code(TonePinNotSet)).AbortCommand()
    else PulseTick(ToneShape(cfg, prm), c, now)
  }

  /**
   * As written, Tone refuses every valve that has a buzzer, and on a valve without one it
   * drives pin 255 and reports ToneOn: the guard is inverted.
   */
  lemma ToneGuardInverted(cfg: ValveConfig, prm: ValveParams, c: Context, now: int)
    requires c.stage == 1 && c.status == Running && c.Unlocked(false)
    ensures cfg.tonePin != NoTonePin ==>
              && ToneTickAsWritten(cfg, prm, c, now).log == c.log + [Code(TonePinNotSet)]
              && ToneTickAsWritten(cfg, prm, c, now).status == Aborted
              && c.log + [Code(ToneOn)] <= ToneTick(cfg, prm, c, now).log
              && ToneTick(cfg, prm, c, now).status != Aborted
    ensures cfg.tonePin == NoTonePin ==>
              && c.writes + [PinWrite(NoTonePin, Digital(HIGH))] <= ToneTickAsWritten(cfg, prm, c, now).writes
              && c.log + [Code(ToneOn)] <= ToneTickAsWritten(cfg, prm, c, now).log
              && ToneTick(cfg, prm, c, now).log == c.log + [Code(TonePinNotSet)]
              && ToneTick(cfg, prm, c, now).writes == c.writes
  {
    PulseTickStarts(ToneShape(cfg, prm), c, now);
  }

  /** The example wiring (valve on pin 29, buzzer on pin 9) cannot sound a tone as written. */
  lemma ExampleValveToneRefused(c: Context, now: int)
    requires c.stage == 1 && c.status == Running && c.Unlocked(false)
    ensures ToneTickAsWritten(ValveConfig(29, true, true, 9), Defaults, c, now).status == Aborted
    ensures ToneTick(ValveConfig(29, true, true, 9), Defaults, c, now).status == Running
  {
    PulseTickStarts(ToneShape(ValveConfig(29, true, true, 9), Defaults), c, now);
  }

  /**
   * The corrected Tone never drives pin 255: without a buzzer it reports TonePinNotSet and
   * writes nothing. With one, it completes, if at all, with ToneOn then ToneOff sent and the
   * buzzer silenced, leaves every other pin (the valve's too) as it was, and completes once
   * the actor lock stays released until tone_duration after the first tick.
   */
  lemma {:induction false} ToneOutcome(cfg: ValveConfig, prm: ValveParams, c: Context, ticks: seq<Tick>, now: int)
    requires c.stage == 1 && c.status == Running
    ensures cfg.tonePin == NoTonePin ==>
              && ToneTick(cfg, prm, c, now).log == c.log + [Code(TonePinNotSet)]
              && ToneTick(cfg, prm, c, now).status == Aborted
              && ToneTick(cfg, prm, c, now).writes == c.writes
    ensures cfg.tonePin != NoTonePin ==>
              var r := PulseRun(ToneShape(cfg, prm), c, ticks);
              && (r.status == Completed ==>
                    && r.log == c.log + [Code(ToneOn), Code(ToneOff)]
                    && cfg.tonePin in r.pins && r.pins[cfg.tonePin] == Digital(LOW))
              && (r.status == Aborted ==> r.log != [] && r.log[|r.log| - 1] == Code(OutputLocked))
              && (forall p :: p != cfg.tonePin && p in c.pins ==> p in r.pins && r.pins[p] == c.pins[p])
              && ((forall i :: 0 <= i < |ticks| ==> ticks[i].Unlocks(false)) &&
                  LongEnough(ToneShape(cfg, prm), if ticks == [] then 0 else ticks[0].now, ticks) ==>
                    r.status == Completed)
  {
    if cfg.tonePin != NoTonePin {
      var s := ToneShape(cfg, prm);
      PulseRunOutcome(s, c, ticks);
      if (forall i :: 0 <= i < |ticks| ==> ticks[i].Unlocks(false)) &&
         LongEnough(s, if ticks == [] then 0 else ticks[0].now, ticks) {
        PulseRunCompletes(s, c, ticks);
      }
    }
  }

  class ValveModule {
    const cfg: ValveConfig
    var params: ValveParams
    var ctx: Context

    constructor (cfg: ValveConfig, ctx: Context)
      ensures this.cfg == cfg && params == Defaults && this.ctx == ctx
    {
      this.cfg := cfg;
      params := Defaults;
      this.ctx := ctx;
    }

    method SetCustomParameters(p: ValveParams) returns (ok: bool)
      modifies this`params
      ensures ok && params == p
    {
      params := p;
      ok := true;
    }

    /**
     * Silences the buzzer (pin 255 included, when none is wired), then drives the valve to
     * its start state, reporting both, and restores the defaults.
     */
    method SetupModule() returns (ok: bool)
      modifies this`ctx, this`params
      ensures ok && params == Defaults
      ensures var silenced := old(ctx).WriteFast(cfg.tonePin, Digital(LOW)).SendData(Code(ToneOff));
        ctx == if cfg.startClosed then silenced.WriteFast(cfg.pin, CloseOut(cfg)).SendData(Code(Closed))
               else silenced.WriteFast(cfg.pin, OpenOut(cfg)).SendData(Code(Open))
    {
      ctx := ctx.WriteFast(cfg.tonePin, Digital(LOW));
      ctx := ctx.SendData(Code(ToneOff));
      if cfg.startClosed {
        ctx := ctx.WriteFast(cfg.pin, Digital(CloseLevel(cfg.normallyClosed)));
        ctx := ctx.SendData(Code(Closed));
      } else {
        ctx := ctx.WriteFast(cfg.pin, Digital(OpenLevel(cfg.normallyClosed)));
        ctx := ctx.SendData(Code(Open));
      }
      params := Defaults;
      ok := true;
    }

    method RunActiveCommand(now: int) returns (handled: bool)
      modifies this`ctx
      ensures handled <==> 1 <= old(ctx.command) <= 5
      ensures old(ctx.command) == SendPulse ==> ctx == ValvePulseTick(cfg, params, old(ctx), now)
      ensures old(ctx.command) == ToggleOn ==> ctx == SetOutput(old(ctx), cfg.pin, OpenOut(cfg), false, [Code(Open)])
      ensures old(ctx.command) == ToggleOff ==>
                ctx == SetOutput(old(ctx), cfg.pin, CloseOut(cfg), false, [Code(Closed)])
      ensures old(ctx.command) == Calibrate ==> ctx == CalibrateEffect(cfg, params, old(ctx))
      ensures old(ctx.command) == TonePulse ==> ctx == ToneTick(cfg, params, old(ctx), now)
      ensures !handled ==> ctx == old(ctx)
    {
      var command := ctx.command;
      if command == SendPulse {
        Pulse(now);
        handled := true;
      } else if command == ToggleOn {
        OpenValve();
        handled := true;
      } else if command == ToggleOff {
        CloseValve();
        handled := true;
      } else if command == Calibrate {
        CalibrateValve();
        handled := true;
      } else if command == TonePulse {
        SoundTone(now);
        handled := true;
      } else {
        handled := false;
      }
    }

    method Pulse(now: int)
      modifies this`ctx
      ensures ctx == ValvePulseTick(cfg, params, old(ctx), now)
    {
      var open := OpenLevel(cfg.normallyClosed);
      var close := CloseLevel(cfg.normallyClosed);
      if ctx.stage == 1 {
        var written := ctx.Unlocked(false);
        ctx := ctx.DigitalWrite(cfg.pin, open, false);
        if written {
          ctx := ctx.SendData(Code(Open));
          if cfg.tonePin != NoTonePin {
            ctx := ctx.WriteFast(cfg.tonePin, Digital(HIGH));
            ctx := ctx.SendData(Code(ToneOn));
          }
          ctx := ctx.AdvanceCommandStage(now);
        } else {
          ctx := ctx.SendData(Code(OutputLocked));
          ctx := ctx.AbortCommand();
          return;
        }
      }
      if ctx.stage == 2 {
        if !ctx.WaitForMicros(now, params.pulseDuration) {
          return;
        }
        ctx := ctx.AdvanceCommandStage(now);
      }
      if ctx.stage == 3 {
        var written := ctx.Unlocked(false);
        ctx := ctx.DigitalWrite(cfg.pin, close, false);
        if written {
          ctx := ctx.SendData(Code(Closed));
          if cfg.tonePin == NoTonePin {
            ctx := ctx.CompleteCommand();
          } else {
            ctx := ctx.AdvanceCommandStage(now);
          }
        } else {
          ctx := ctx.SendData(Code(OutputLocked));
          ctx := ctx.AbortCommand();
        }
      }
      if ctx.stage == 4 {
        var remaining := (params.toneDuration - params.pulseDuration) % 0x1_0000_0000;
        if !ctx.WaitForMicros(now, remaining) {
          return;
        }
        ctx := ctx.AdvanceCommandStage(now);
      }
      if ctx.stage == 5 {
        ctx := ctx.WriteFast(cfg.tonePin, Digital(LOW));
        ctx := ctx.SendData(Code(ToneOff));
        ctx := ctx.CompleteCommand();
      }
    }

    method OpenValve()
      modifies this`ctx
      ensures ctx == SetOutput(old(ctx), cfg.pin, OpenOut(cfg), false, [Code(Open)])
    {
      var written := ctx.Unlocked(false);
      ctx := ctx.DigitalWrite(cfg.pin, OpenLevel(cfg.normallyClosed), false);
      if written {
        ctx := ctx.SendData(Code(Open));
        ctx := ctx.CompleteCommand();
      } else {
        ctx := ctx.SendData(Code(OutputLocked));
        ctx := ctx.AbortCommand();
      }
    }

    method CloseValve()
      modifies this`ctx
      ensures ctx == SetOutput(old(ctx), cfg.pin, CloseOut(cfg), false, [Code(Closed)])
    {
      var written := ctx.Unlocked(false);
      ctx := ctx.DigitalWrite(cfg.pin, CloseLevel(cfg.normallyClosed), false);
      if written {
        ctx := ctx.SendData(Code(Closed));
        ctx := ctx.CompleteCommand();
      } else {
        ctx := ctx.SendData(Code(OutputLocked));
        ctx := ctx.AbortCommand();
      }
    }

    /**
     * The Calibrate command. The blocking delays between the writes are not modelled; the
     * locks cannot change while it runs, so once the first opening is allowed every later
     * write is too.
     */
    method CalibrateValve()
      modifies this`ctx
      ensures ctx == CalibrateEffect(cfg, params, old(ctx))
    {
      ghost var c0 := ctx;
      var open := OpenLevel(cfg.normallyClosed);
      var close := CloseLevel(cfg.normallyClosed);
      var i := 0;
      while i < params.calibrationCount
        invariant 0 <= i <= params.calibrationCount
        invariant i > 0 ==> c0.Unlocked(false)
        invariant ctx == c0.(pins := if i == 0 then c0.pins else c0.pins[cfg.pin := CloseOut(cfg)],
                             writes := c0.writes + CalibrationWrites(cfg.pin, OpenOut(cfg), CloseOut(cfg), i))
      {
        var written := ctx.Unlocked(false);
        ctx := ctx.DigitalWrite(cfg.pin, open, false);
        if !written {
          ctx := ctx.SendData(Code(OutputLocked));
          ctx := ctx.AbortCommand();
          return;
        }
        written := ctx.Unlocked(false);
        if !written {
          assert false;
        }
        ctx := ctx.DigitalWrite(cfg.pin, close, false);
        assert c0.pins[cfg.pin := CloseOut(cfg)] == ctx.pins;
        i := i + 1;
      }
      ctx := ctx.SendData(Code(Calibrated));
      ctx := ctx.CompleteCommand();
    }

    /** The Tone command, with the guard corrected (see ToneGuardInverted). */
    method SoundTone(now: int)
      modifies this`ctx
      ensures ctx == ToneTick(cfg, params, old(ctx), now)
    {
      if cfg.tonePin == NoTonePin {
        ctx := ctx.SendData(Code(TonePinNotSet));
        ctx := ctx.AbortCommand();
        return;
      }
      if ctx.stage == 1 {
        WriteAllFastSingle(ctx, cfg.tonePin, Digital(HIGH));
        var written := ctx.Unlocked(false);
        ctx := ctx.DigitalWrite(cfg.tonePin, HIGH, false);
        if written {
          ctx := ctx.SendData(Code(ToneOn));
          ctx := ctx.AdvanceCommandStage(now);
        } else {
          ctx := ctx.SendData(Code(OutputLocked));
          ctx := ctx.AbortCommand();
          return;
        }
      }
      if ctx.stage == 2 {
        if !ctx.WaitForMicros(now, params.toneDuration) {
          return;
        }
        ctx := ctx.AdvanceCommandStage(now);
      }
      if ctx.stage == 3 {
        WriteAllFastSingle(ctx, cfg.tonePin, Digital(LOW));
        var written := ctx.Unlocked(false);
        ctx := ctx.DigitalWrite(cfg.tonePin, LOW, false);
        if written {
          ctx := ctx.SendData(Code(ToneOff));
          ctx := ctx.CompleteCommand();
        } else {
          ctx := ctx.SendData(Code(OutputLocked));
          ctx := ctx.AbortCommand();
        }
      }
    }
  }
}

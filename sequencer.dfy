/**
 * The two command shapes the actuator drivers share, as specifications over the Context.
 *
 * A single-stage command (ToggleOn, ToggleOff, EnableBreak, SetBreakingPower, ...) performs
 * one lock-respecting write and completes, or reports OutputLocked and aborts.
 *
 * A three-stage pulse (the TTL, speaker and screen pulses and the valve's tone) drives its
 * pins to the active level (stage 1), waits without blocking until the pulse duration has
 * elapsed since stage 1 ended (stage 2), and drives the pins back (stage 3). The stages are
 * tested by successive `if`s, so one tick can run several of them in a row.
 */
module Sequencer {
  import opened Runtime

  /** A write the global lock refused: report it and abort the command. */
  function Refused(c: Context): Context
  {
    c.SendData(Code(OutputLocked)).AbortCommand()
  }

  /** A single-stage command writing out to pin and sending confirm on success. */
  function SetOutput(c: Context, pin: Byte, out: Output, ttl: bool, confirm: seq<Event>): Context
  {
    if c.Unlocked(ttl) then c.WriteFast(pin, out).SendAll(confirm).CompleteCommand()
    else Refused(c)
  }

  lemma SetOutputOutcome(c: Context, pin: Byte, out: Output, ttl: bool, confirm: seq<Event>)
    ensures var r := SetOutput(c, pin, out, ttl, confirm);
      && r.stage == c.stage && r.command == c.command
      && (c.Unlocked(ttl) ==>
            && r.pins == c.pins[pin := out] && r.writes == c.writes + [PinWrite(pin, out)]
            && r.log == c.log + confirm && r.status == Completed)
      && (!c.Unlocked(ttl) ==>
            && r.pins == c.pins && r.writes == c.writes
            && r.log == c.log + [Code(OutputLocked)] && r.status == Aborted)
  {
  }

  /**
   * Issuing a single-stage command again when its pin already carries the output leaves
   * the pins as they are, sends the confirmation again and completes.
   */
  lemma SetOutputIdempotent(c: Context, pin: Byte, out: Output, ttl: bool, confirm: seq<Event>)
    requires c.Unlocked(ttl) && pin in c.pins && c.pins[pin] == out
    ensures var r := SetOutput(c, pin, out, ttl, confirm);
      r.pins == c.pins && r.log == c.log + confirm && r.status == Completed
  {
    assert c.pins[pin := out] == c.pins;
  }

  /** The pins, levels, duration, lock and confirmation events of one kind of pulse. */
  datatype PulseShape = PulseShape(
    pins: seq<Byte>,
    active: bool,
    inactive: bool,
    duration: int,
    ttl: bool,
    onEvents: seq<Event>,
    offEvents: seq<Event>)

  /** Stage 1: drive every pin to the active level, or report the lock and abort. */
  function Activate(s: PulseShape, c: Context, now: int): Context
  {
    if c.stage != 1 then c
    else if c.Unlocked(s.ttl) then
      c.WriteAllFast(s.pins, Digital(s.active)).SendAll(s.onEvents).AdvanceCommandStage(now)
    else Refused(c)
  }

  /** Stage 2: stay until the duration has elapsed since the stage began. */
  function Hold(s: PulseShape, c: Context, now: int): Context
  {
    if c.stage == 2 && c.WaitForMicros(now, s.duration) then c.AdvanceCommandStage(now) else c
  }

  /** Stage 3: drive every pin back to the inactive level and complete, or abort. */
  function Release(s: PulseShape, c: Context): Context
  {
    if c.stage != 3 then c
    else if c.Unlocked(s.ttl) then
      c.WriteAllFast(s.pins, Digital(s.inactive)).SendAll(s.offEvents).CompleteCommand()
    else Refused(c)
  }

  /** One re-entry of the pulse command. */
  function PulseTick(s: PulseShape, c: Context, now: int): Context
  {
    Release(s, Hold(s, Activate(s, c, now), now))
  }

  /** The pulse re-entered once per tick until it completes or aborts. */
  function PulseRun(s: PulseShape, c: Context, ticks: seq<Tick>): Context
    decreases |ticks|
  {
    if ticks == [] || c.status != Running then c
    else PulseRun(s, PulseTick(s, Enter(c, ticks[0]), ticks[0].now), ticks[1..])
  }

  /** In stage 1 with the lock engaged a tick only reports the lock and aborts. */
  lemma PulseLockedAtStart(s: PulseShape, c: Context, now: int)
    requires c.stage == 1 && !c.Unlocked(s.ttl)
    ensures PulseTick(s, c, now) == Refused(c)
  {
  }

  /**
   * In stage 1 with the lock released a tick drives every pin active and sends the on events;
   * whatever else the same tick does comes after them, and it does not abort.
   */
  lemma PulseTickStarts(s: PulseShape, c: Context, now: int)
    requires c.stage == 1 && c.status == Running && c.Unlocked(s.ttl)
    ensures var r := PulseTick(s, c, now);
      && r.status != Aborted
      && c.log + s.onEvents <= r.log
      && c.writes + WriteList(s.pins, Digital(s.active)) <= r.writes
  {
    WriteAllFastEffect(c, s.pins, Digital(s.active));
    var h := Hold(s, Activate(s, c, now), now);
    WriteAllFastEffect(h, s.pins, Digital(s.inactive));
  }

  /** Before the duration has elapsed, re-entering the wait stage changes nothing. */
  lemma PulseWaitIsSilent(s: PulseShape, c: Context, now: int)
    requires c.stage == 2 && !c.WaitForMicros(now, s.duration)
    ensures PulseTick(s, c, now) == c
  {
  }

  /** Every pin outside ps holds in c what it held in c0, or is absent from both. */
  ghost predicate Untouched(ps: seq<Byte>, c0: Context, c: Context)
  {
    forall p :: p !in ps ==> (p in c.pins <==> p in c0.pins) && (p in c.pins ==> c.pins[p] == c0.pins[p])
  }

  /**
   * Where a pulse that started from c0 can be: still in stage 1 with nothing done, holding
   * the active level, completed with exactly the on and off events and writes, or aborted
   * right after an OutputLocked report, never having written the inactive level.
   */
  ghost predicate PulseProgress(s: PulseShape, c0: Context, c: Context)
  {
    var on := c0.writes + WriteList(s.pins, Digital(s.active));
    var off := on + WriteList(s.pins, Digital(s.inactive));
    && c.command == c0.command
    && Untouched(s.pins, c0, c)
    && (c.status == Running ==>
          || (c.stage == 1 && c.log == c0.log && c.writes == c0.writes && c.pins == c0.pins)
          || ((c.stage == 2 || c.stage == 3) && c.log == c0.log + s.onEvents && c.writes == on))
    && (c.status == Completed ==>
          && c.stage == 3 && c.log == c0.log + s.onEvents + s.offEvents && c.writes == off
          && forall p :: p in s.pins ==> p in c.pins && c.pins[p] == Digital(s.inactive))
    && (c.status == Aborted ==>
          || (c.log == c0.log + [Code(OutputLocked)] && c.writes == c0.writes && c.pins == c0.pins)
          || (c.log == c0.log + s.onEvents + [Code(OutputLocked)] && c.writes == on))
  }

  lemma PulseTickProgress(s: PulseShape, c0: Context, c: Context, t: Tick)
    requires PulseProgress(s, c0, c) && c.status == Running
    ensures PulseProgress(s, c0, PulseTick(s, Enter(c, t), t.now))
  {
    var e := Enter(c, t);
    var a := Activate(s, e, t.now);
    if e.stage == 1 && e.Unlocked(s.ttl) {
      WriteAllFastEffect(e, s.pins, Digital(s.active));
    }
    var h := Hold(s, a, t.now);
    if h.stage == 3 && h.Unlocked(s.ttl) {
      WriteAllFastEffect(h, s.pins, Digital(s.inactive));
      assert h.writes + WriteList(s.pins, Digital(s.inactive)) ==
             c0.writes + WriteList(s.pins, Digital(s.active)) + WriteList(s.pins, Digital(s.inactive));
    }
  }

  lemma {:induction false} PulseRunProgress(s: PulseShape, c0: Context, c: Context, ticks: seq<Tick>)
    requires PulseProgress(s, c0, c)
    ensures PulseProgress(s, c0, PulseRun(s, c, ticks))
    decreases |ticks|
  {
    if ticks != [] && c.status == Running {
      PulseTickProgress(s, c0, c, ticks[0]);
      PulseRunProgress(s, c0, PulseTick(s, Enter(c, ticks[0]), ticks[0].now), ticks[1..]);
    }
  }

  /**
   * Whatever the clock and the locks do, a pulse issued at c emits either nothing yet, the
   * on events, the on and off events (and then it has completed with every pin inactive),
   * or ends with one OutputLocked report and an abort, without the inactive level written.
   */
  lemma PulseRunOutcome(s: PulseShape, c: Context, ticks: seq<Tick>)
    requires c.stage == 1 && c.status == Running
    ensures var r := PulseRun(s, c, ticks);
      var on := c.writes + WriteList(s.pins, Digital(s.active));
      && (r.status == Completed ==>
            && r.log == c.log + s.onEvents + s.offEvents
            && r.writes == on + WriteList(s.pins, Digital(s.inactive))
            && forall p :: p in s.pins ==> p in r.pins && r.pins[p] == Digital(s.inactive))
      && (r.status == Aborted ==>
            || (r.log == c.log + [Code(OutputLocked)] && r.writes == c.writes)
            || (r.log == c.log + s.onEvents + [Code(OutputLocked)] && r.writes == on))
      && (r.status == Running ==> r.log == c.log || r.log == c.log + s.onEvents)
      && Untouched(s.pins, c, r)
  {
    PulseRunProgress(s, c, c, ticks);
  }

  /** The last tick's time minus the first's reaches the duration. */
  ghost predicate LongEnough(s: PulseShape, start: int, ticks: seq<Tick>)
  {
    ticks != [] && ticks[|ticks| - 1].now - start >= s.duration
  }

  lemma {:induction false} HoldThenRelease(s: PulseShape, c0: Context, c: Context, ticks: seq<Tick>)
    requires PulseProgress(s, c0, c) && c.status == Running && c.stage == 2
    requires forall i :: 0 <= i < |ticks| ==> ticks[i].Unlocks(s.ttl)
    requires LongEnough(s, c.stageStart, ticks)
    ensures PulseRun(s, c, ticks).status == Completed
    decreases |ticks|
  {
    var e := Enter(c, ticks[0]);
    PulseTickProgress(s, c0, c, ticks[0]);
    var n := PulseTick(s, e, ticks[0].now);
    if !e.WaitForMicros(ticks[0].now, s.duration) {
      assert n == e;
      HoldThenRelease(s, c0, n, ticks[1..]);
    }
  }

  /**
   * With the lock released on every tick and the last tick at least the pulse duration after
   * the first, a pulse issued at c completes: it emits exactly the on and then the off
   * events and leaves every pin inactive.
   */
  lemma {:induction false} PulseRunCompletes(s: PulseShape, c: Context, ticks: seq<Tick>)
    requires c.stage == 1 && c.status == Running
    requires forall i :: 0 <= i < |ticks| ==> ticks[i].Unlocks(s.ttl)
    requires LongEnough(s, if ticks == [] then 0 else ticks[0].now, ticks)
    ensures var r := PulseRun(s, c, ticks);
      && r.status == Completed
      && r.log == c.log + s.onEvents + s.offEvents
      && forall p :: p in s.pins ==> p in r.pins && r.pins[p] == Digital(s.inactive)
  {
    PulseRunProgress(s, c, c, ticks);
    var e := Enter(c, ticks[0]);
    PulseTickProgress(s, c, c, ticks[0]);
    assert ticks[0].Unlocks(s.ttl);
    WriteAllFastEffect(e, s.pins, Digital(s.active));
    var a := Activate(s, e, ticks[0].now);
    assert a.stage == 2 && a.stageStart == ticks[0].now && a.status == Running;
    if !a.WaitForMicros(ticks[0].now, s.duration) {
      assert PulseTick(s, e, ticks[0].now) == a;
      assert ticks[1..][|ticks| - 2] == ticks[|ticks| - 1];
      HoldThenRelease(s, c, a, ticks[1..]);
    }
  }
}

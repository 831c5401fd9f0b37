/**
 * The lick sensor driver (LickModule): an analog pin whose voltage rises while the animal's
 * tongue touches the sensor. CheckState reports significant changes only, and collapses a
 * run of sub-threshold readings into one zero.
 */
module Lick {
  import opened Runtime
  import opened ChangeFilter

  // Status code sent to the PC (with a uint16 payload).
  const Changed: Byte := 51

  // Command code.
  const CheckState: Byte := 1

  datatype LickConfig = LickConfig(pin: Byte)

  datatype LickParams = LickParams(signalThreshold: Uint16, deltaThreshold: Uint16, averagePoolSize: Byte)

  const Defaults := LickParams(200, 180, 0)

  /** The filter memory as the firmware initialises it. */
  const Fresh := FilterMemory(0, false)

  /** One CheckState on the averaged reading signal. */
  function LickStep(prm: LickParams, m: FilterMemory, signal: Uint16): Checked
  {
    if !Passes(m, signal, prm.deltaThreshold) then Checked(m, [])
    else if signal >= prm.signalThreshold then Checked(FilterMemory(signal, false), [Data(Changed, signal)])
    else if !m.previousZero then Checked(FilterMemory(signal, true), [Data(Changed, 0)])
    else Checked(FilterMemory(signal, true), [])
  }

  /** CheckState called once per reading. */
  function LickRun(prm: LickParams, m: FilterMemory, signals: seq<Uint16>): Checked
    decreases |signals|
  {
    if signals == [] then Checked(m, [])
    else
      var first := LickStep(prm, m, signals[0]);
      var rest := LickRun(prm, first.memory, signals[1..]);
      Checked(rest.memory, first.events + rest.events)
  }

  /**
   * A reading within delta_threshold of the previous accepted one is dropped and leaves the
   * memory as it was. Otherwise it becomes the previous readout, and it is reported as itself
   * when it reaches signal_threshold, or as a zero when it does not and the last report was
   * not already a zero.
   */
  lemma LickStepReports(prm: LickParams, m: FilterMemory, signal: Uint16)
    ensures var r := LickStep(prm, m, signal);
      && (!Passes(m, signal, prm.deltaThreshold) ==> r == Checked(m, []))
      && (Passes(m, signal, prm.deltaThreshold) ==>
            && r.memory.previousReadout == signal
            && (r.memory.previousZero <==> signal < prm.signalThreshold)
            && (signal >= prm.signalThreshold ==> r.events == [Data(Changed, signal)])
            && (signal < prm.signalThreshold && !m.previousZero ==> r.events == [Data(Changed, 0)])
            && (signal < prm.signalThreshold && m.previousZero ==> r.events == []))
  {
  }

  /**
   * The delta gate makes each reading self-suppressing: once a reading has been checked,
   * the same reading again is dropped, with no report and the memory left as it is.
   */
  lemma RepeatedReadingIsDropped(prm: LickParams, m: FilterMemory, signal: Uint16)
    ensures var m1 := LickStep(prm, m, signal).memory;
      LickStep(prm, m1, signal) == Checked(m1, [])
  {
    LickStepReports(prm, m, signal);
  }

  /** The threshold invariant: a run that started after a zero is still entitled to treat it as one. */
  ghost predicate ZeroEntitled(prm: LickParams, m: FilterMemory, z: bool)
  {
    z ==> (m.previousZero && prm.signalThreshold > 0) || (m.previousReadout == 0 && prm.signalThreshold == 0)
  }

  lemma {:induction false} LickRunNoRepeatedZero(prm: LickParams, m: FilterMemory, signals: seq<Uint16>, z: bool)
    requires ZeroEntitled(prm, m, z)
    ensures var r := LickRun(prm, m, signals);
      && NoRepeatedZero(r.events)
      && (z && r.events != [] ==> !IsZero(r.events[0]))
    decreases |signals|
  {
    if signals != [] {
      var first := LickStep(prm, m, signals[0]);
      var z1 := EndsZero(z, first.events);
      assert ZeroEntitled(prm, first.memory, z1);
      LickRunNoRepeatedZero(prm, first.memory, signals[1..], z1);
      var rest := LickRun(prm, first.memory, signals[1..]);
      ConcatNoRepeatedZero(z, first.events, rest.events);
    }
  }

  /** Whatever memory CheckState starts from, the reports it sends never hold two zeros in a row. */
  lemma CheckStateNeverRepeatsZero(prm: LickParams, m: FilterMemory, signals: seq<Uint16>)
    ensures NoRepeatedZero(LickRun(prm, m, signals).events)
  {
    LickRunNoRepeatedZero(prm, m, signals, false);
  }

  /** Every report is a Changed message carrying zero or one of the readings that reached signal_threshold. */
  ghost predicate ReportsReadings(prm: LickParams, es: seq<Event>, signals: seq<Uint16>)
  {
    forall i :: 0 <= i < |es| ==>
      && es[i].code == Changed && es[i].payload.Some?
      && (es[i].payload.value == 0 ||
          (prm.signalThreshold <= es[i].payload.value && es[i].payload.value in signals))
  }

  lemma {:induction false} LickPayloads(prm: LickParams, m: FilterMemory, signals: seq<Uint16>)
    ensures ReportsReadings(prm, LickRun(prm, m, signals).events, signals)
    decreases |signals|
  {
    if signals != [] {
      var first := LickStep(prm, m, signals[0]);
      var rest := LickRun(prm, first.memory, signals[1..]);
      LickPayloads(prm, first.memory, signals[1..]);
      LickStepReports(prm, m, signals[0]);
      var es := first.events + rest.events;
      forall i | 0 <= i < |es|
        ensures es[i].code == Changed && es[i].payload.Some? && (es[i].payload.value == 0 ||
                  (prm.signalThreshold <= es[i].payload.value && es[i].payload.value in signals))
      {
        if i >= |first.events| {
          var j := i - |first.events|;
          assert es[i] == rest.events[j];
          assert rest.events[j].payload.value in signals[1..] ==> rest.events[j].payload.value in signals;
        } else {
          assert es[i] == first.events[0];
          assert signals[0] in signals;
        }
      }
    }
  }

  /**
   * With signal_threshold 200 and delta_threshold 100, readings 0, 0, 250, 250, 0 from the
   * initial memory produce exactly Changed(250) then Changed(0).
   */
  lemma ExampleTrace()
    ensures LickRun(LickParams(200, 100, 0), Fresh, [0, 0, 250, 250, 0]).events
            == [Data(Changed, 250), Data(Changed, 0)]
  {
    var prm := LickParams(200, 100, 0);
    var s: seq<Uint16> := [0, 0, 250, 250, 0];
    assert s[1..] == [0, 250, 250, 0] && s[1..][1..] == [250, 250, 0];
    assert s[1..][1..][1..] == [250, 0] && s[1..][1..][1..][1..] == [0];
    var m250 := FilterMemory(250, false);
    assert LickRun(prm, FilterMemory(0, true), []) == Checked(FilterMemory(0, true), []);
    assert LickRun(prm, m250, [0]).events == [Data(Changed, 0)];
    assert LickRun(prm, m250, [250, 0]).events == [Data(Changed, 0)];
    assert LickRun(prm, Fresh, [250, 250, 0]).events == [Data(Changed, 250)] + [Data(Changed, 0)];
  }

  /**
   * SetupModule reports a zero without recording it in the filter memory, so with the
   * default thresholds a first reading of 190 sends a second zero straight after it.
   */
  lemma SetupZeroRepeats(c: Context)
    ensures var first := LickStep(Defaults, Fresh, 190);
      c.SendData(Data(Changed, 0)).SendAll(first.events).log == c.log + [Data(Changed, 0), Data(Changed, 0)]
  {
  }

  class LickModule {
    const cfg: LickConfig
    var params: LickParams
    var ctx: Context
    var previousReadout: Uint16
    var previousZero: bool

    constructor (cfg: LickConfig, ctx: Context)
      ensures this.cfg == cfg && params == Defaults && this.ctx == ctx
      ensures FilterMemory(previousReadout, previousZero) == Fresh
    {
      this.cfg := cfg;
      params := Defaults;
      this.ctx := ctx;
      previousReadout := 0;
      previousZero := false;
    }

    method SetCustomParameters(p: LickParams) returns (ok: bool)
      modifies this`params
      ensures ok && params == p
    {
      params := p;
      ok := true;
    }

    /** Restores the defaults and reports a zero; the filter memory is left as it is. */
    method SetupModule() returns (ok: bool)
      modifies this`ctx, this`params
      ensures ok && params == Defaults
      ensures ctx == old(ctx).SendData(Data(Changed, 0))
    {
      params := Defaults;
      ctx := ctx.SendData(Data(Changed, 0));
      ok := true;
    }

    method RunActiveCommand(signal: Uint16) returns (handled: bool)
      modifies this`ctx, this`previousReadout, this`previousZero
      ensures handled <==> old(ctx.command) == CheckState
      ensures handled ==>
                var r := LickStep(params, FilterMemory(old(previousReadout), old(previousZero)), signal);
                && FilterMemory(previousReadout, previousZero) == r.memory
                && ctx == old(ctx).SendAll(r.events).CompleteCommand()
      ensures !handled ==> ctx == old(ctx) && previousReadout == old(previousReadout) && previousZero == old(previousZero)
    {
      if ctx.command == CheckState {
        Check(signal);
        handled := true;
      } else {
        handled := false;
      }
    }

    /** CheckState; signal is the averaged AnalogRead of the pin. */
    method Check(signal: Uint16)
      modifies this`ctx, this`previousReadout, this`previousZero
      ensures var r := LickStep(params, FilterMemory(old(previousReadout), old(previousZero)), signal);
        && FilterMemory(previousReadout, previousZero) == r.memory
        && ctx == old(ctx).SendAll(r.events).CompleteCommand()
    {
      var delta := Abs(signal - previousReadout);
      if delta <= params.deltaThreshold {
        assert ctx.SendAll([]) == ctx;
        ctx := ctx.CompleteCommand();
        return;
      }
      previousReadout := signal;
      if signal >= params.signalThreshold {
        ctx := ctx.SendData(Data(Changed, signal));
        previousZero := false;
      } else {
        if !previousZero {
          ctx := ctx.SendData(Data(Changed, 0));
          previousZero := true;
        } else {
          assert ctx.SendAll([]) == ctx;
        }
      }
      ctx := ctx.CompleteCommand();
    }
  }
}

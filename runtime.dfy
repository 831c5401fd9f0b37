/**
 * The part of the firmware's Module base class that the device drivers use.
 *
 * The base class itself (module.h) is not part of this model. What the drivers rely on is
 * modelled as one record, the Context: the active command and its stage cursor, the time
 * the stage was entered, the command's status, the two global output locks, the levels of
 * the pins, the order in which pins were written, and the log of messages sent to the PC.
 */
module Runtime {

  type Byte = x: int | 0 <= x < 0x100
  type Uint16 = x: int | 0 <= x < 0x1_0000
  type Uint32 = x: int | 0 <= x < 0x1_0000_0000
  type Int32 = x: int | -0x8000_0000 <= x < 0x8000_0000

  const HIGH: bool := true
  const LOW: bool := false

  /** The status code every actuator driver reserves for a write the global lock refused. */
  const OutputLocked: Byte := 51

  datatype Option<T> = None | Some(value: T)

  /** One message to the PC: a status code, and a scalar payload for data messages. */
  datatype Event = Event(code: Byte, payload: Option<int>)

  function Code(code: Byte): Event { Event(code, None) }

  function Data(code: Byte, value: int): Event { Event(code, Some(value)) }

  /** What a pin is driven with: a digital level or a PWM duty cycle. */
  datatype Output = Digital(level: bool) | Pwm(duty: Byte)

  datatype PinWrite = PinWrite(pin: Byte, output: Output)

  datatype Status = Running | Completed | Aborted

  datatype Context = Context(
    command: Byte,
    stage: nat,
    stageStart: int,
    status: Status,
    actorLock: bool,
    ttlLock: bool,
    pins: map<Byte, Output>,
    writes: seq<PinWrite>,
    log: seq<Event>)
  {
    /** The scheduler hands the module a new command: stage 1, its timer anchored at now. */
    function Begin(code: Byte, now: int): Context
    {
      this.(command := code, stage := 1, stageStart := now, status := Running)
    }

    function AdvanceCommandStage(now: int): Context
    {
      this.(stage := stage + 1, stageStart := now)
    }

    function CompleteCommand(): Context
    {
      this.(status := Completed)
    }

    function AbortCommand(): Context
    {
      this.(status := Aborted)
    }

    /** The non-blocking elapsed check; it has no side effects. */
    predicate WaitForMicros(now: int, duration: int)
    {
      now - stageStart >= duration
    }

    function SendData(e: Event): Context
    {
      this.(log := log + [e])
    }

    function SendAll(es: seq<Event>): Context
    {
      this.(log := log + es)
    }

    /** Whether a lock-respecting write may proceed; ttl selects the TTL lock, else the actor lock. */
    predicate Unlocked(ttl: bool)
    {
      if ttl then !ttlLock else !actorLock
    }

    /** A plain write that does not consult either lock (digitalWriteFast). */
    function WriteFast(pin: Byte, out: Output): Context
    {
      this.(pins := pins[pin := out], writes := writes + [PinWrite(pin, out)])
    }

    /** DigitalWrite: writes the level unless the selected lock is engaged. */
    function DigitalWrite(pin: Byte, level: bool, ttl: bool): Context
    {
      if Unlocked(ttl) then WriteFast(pin, Digital(level)) else this
    }

    /** AnalogWrite: sets the PWM duty unless the selected lock is engaged. */
    function AnalogWrite(pin: Byte, duty: Byte, ttl: bool): Context
    {
      if Unlocked(ttl) then WriteFast(pin, Pwm(duty)) else this
    }

    /** Plain writes of one output to several pins, in order. */
    function WriteAllFast(ps: seq<Byte>, out: Output): Context
      decreases |ps|
    {
      if ps == [] then this else WriteFast(ps[0], out).WriteAllFast(ps[1..], out)
    }
  }

  /** The write history that WriteAllFast(ps, out) appends. */
  function WriteList(ps: seq<Byte>, out: Output): (r: seq<PinWrite>)
    ensures |r| == |ps|
    ensures forall i :: 0 <= i < |ps| ==> r[i] == PinWrite(ps[i], out)
  {
    if ps == [] then [] else [PinWrite(ps[0], out)] + WriteList(ps[1..], out)
  }

  lemma {:induction false} WriteAllFastEffect(c: Context, ps: seq<Byte>, out: Output)
    ensures c.WriteAllFast(ps, out) ==
            c.(pins := c.WriteAllFast(ps, out).pins, writes := c.writes + WriteList(ps, out))
    ensures forall p :: p in ps ==>
              p in c.WriteAllFast(ps, out).pins && c.WriteAllFast(ps, out).pins[p] == out
    ensures forall p :: p !in ps && p in c.pins ==>
              p in c.WriteAllFast(ps, out).pins && c.WriteAllFast(ps, out).pins[p] == c.pins[p]
    ensures forall p :: p !in ps && p !in c.pins ==> p !in c.WriteAllFast(ps, out).pins
    decreases |ps|
  {
    if ps != [] {
      WriteAllFastEffect(c.WriteFast(ps[0], out), ps[1..], out);
      assert c.writes + WriteList(ps, out) == c.writes + [PinWrite(ps[0], out)] + WriteList(ps[1..], out);
    }
  }

  /** Writing a one-pin list is one plain write. */
  lemma WriteAllFastSingle(c: Context, p: Byte, out: Output)
    ensures c.WriteAllFast([p], out) == c.WriteFast(p, out)
  {
    assert [p][1..] == [];
  }

  /** What the environment supplies to one scheduler tick: the clock and the two locks. */
  datatype Tick = Tick(now: int, actorLock: bool, ttlLock: bool)
  {
    predicate Unlocks(ttl: bool) { if ttl then !ttlLock else !actorLock }
  }

  /** The tick's view of the context: the locks as the environment has set them. */
  function Enter(c: Context, t: Tick): Context
  {
    c.(actorLock := t.actorLock, ttlLock := t.ttlLock)
  }
}

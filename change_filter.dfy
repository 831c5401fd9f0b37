/**
 * What the lick and torque sensor drivers share: the memory their CheckState keeps between
 * calls, the delta gate that suppresses insignificant changes, and the vocabulary for the
 * "zero-collapse" rule (a run of sub-threshold readings is reported as a single zero).
 */
module ChangeFilter {
  import opened Runtime

  /** The previous accepted readout and whether the last report was a zero. */
  datatype FilterMemory = FilterMemory(previousReadout: Uint16, previousZero: bool)

  /** The outcome of one check: the new memory and the messages sent. */
  datatype Checked = Checked(memory: FilterMemory, events: seq<Event>)

  function Abs(x: int): nat { if x < 0 then -x else x }

  /** The delta gate: the reading differs from the previous accepted one by more than the threshold. */
  predicate Passes(m: FilterMemory, signal: Uint16, deltaThreshold: Uint16)
  {
    Abs(signal - m.previousReadout) > deltaThreshold
  }

  predicate IsZero(e: Event)
  {
    e.payload == Some(0)
  }

  /** No two adjacent messages both carry a zero. */
  ghost predicate NoRepeatedZero(es: seq<Event>)
  {
    forall i :: 0 <= i < |es| - 1 ==> !(IsZero(es[i]) && IsZero(es[i + 1]))
  }

  /** Whether the last message was a zero, after es, when before es it was z. */
  predicate EndsZero(z: bool, es: seq<Event>)
  {
    if es == [] then z else IsZero(es[|es| - 1])
  }

  /**
   * Appending the later reports b to at most one report a keeps zeros apart, as long as
   * neither a nor b starts with a zero right after one.
   */
  lemma ConcatNoRepeatedZero(z: bool, a: seq<Event>, b: seq<Event>)
    requires |a| <= 1
    requires z && a != [] ==> !IsZero(a[0])
    requires NoRepeatedZero(b)
    requires EndsZero(z, a) && b != [] ==> !IsZero(b[0])
    ensures NoRepeatedZero(a + b)
    ensures z && a + b != [] ==> !IsZero((a + b)[0])
    ensures EndsZero(z, a + b) == EndsZero(EndsZero(z, a), b)
  {
    var es := a + b;
    forall i | 0 <= i < |es| - 1
      ensures !(IsZero(es[i]) && IsZero(es[i + 1]))
    {
      if i >= |a| {
        assert es[i] == b[i - |a|] && es[i + 1] == b[i - |a| + 1];
      }
    }
  }
}

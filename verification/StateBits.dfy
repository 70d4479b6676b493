/** The `_state` byte of lib/constants.js and the eight flags it stands for. */
module StateBits {
  import opened Protocol

  const CONNECTING: bv8 := 0x1
  const CONNECTED: bv8 := 0x2
  const BINDING: bv8 := 0x4
  const BOUND: bv8 := 0x8
  const READING: bv8 := 0x10
  const CLOSING: bv8 := 0x20
  const CLOSED: bv8 := 0x40
  const UNREFED: bv8 := 0x80

  /** `state & mask`, used as a condition. */
  predicate Has(state: bv8, mask: bv8) { state & mask != 0 }

  function Set(state: bv8, mask: bv8): bv8 { state | mask }

  function Clear(state: bv8, mask: bv8): bv8 { state & !mask }

  function FlagsOf(state: bv8): Flags {
    Flags(Has(state, CONNECTING), Has(state, CONNECTED), Has(state, BINDING), Has(state, BOUND),
          Has(state, READING), Has(state, CLOSING), Has(state, CLOSED), Has(state, UNREFED))
  }

  /** Different bytes stand for different flags: nothing in the byte is lost. */
  lemma FlagsAreTheState(a: bv8, b: bv8)
    ensures FlagsOf(a) == FlagsOf(b) <==> a == b
  {
  }

  lemma Tests(b: bv8)
    ensures Has(b, CONNECTED) == FlagsOf(b).connected
    ensures Has(b, BINDING) == FlagsOf(b).binding
    ensures Has(b, BOUND) == FlagsOf(b).bound
    ensures Has(b, READING) == FlagsOf(b).reading
    ensures Has(b, CLOSING) == FlagsOf(b).closing
    ensures Has(b, CLOSED) == FlagsOf(b).closed
    ensures Has(b, CONNECTING | CONNECTED) == (FlagsOf(b).connecting || FlagsOf(b).connected)
    ensures Has(b, BINDING | BOUND) == (FlagsOf(b).binding || FlagsOf(b).bound)
    ensures Has(b, CLOSING | CLOSED) == (FlagsOf(b).closing || FlagsOf(b).closed)
  {
  }

  lemma Sets(b: bv8)
    ensures FlagsOf(Set(b, CONNECTING)) == FlagsOf(b).(connecting := true)
    ensures FlagsOf(Set(b, CONNECTED)) == FlagsOf(b).(connected := true)
    ensures FlagsOf(Set(b, BINDING)) == FlagsOf(b).(binding := true)
    ensures FlagsOf(Set(b, BOUND)) == FlagsOf(b).(bound := true)
    ensures FlagsOf(Set(b, READING)) == FlagsOf(b).(reading := true)
    ensures FlagsOf(Set(b, CLOSING)) == FlagsOf(b).(closing := true)
    ensures FlagsOf(Set(b, CLOSED)) == FlagsOf(b).(closed := true)
    ensures FlagsOf(Set(b, UNREFED)) == FlagsOf(b).(unrefed := true)
  {
    hide FlagsOf, Set;
    SetsLow(b);
    SetsHigh(b);
  }

  lemma SetsLow(b: bv8)
    ensures FlagsOf(Set(b, CONNECTING)) == FlagsOf(b).(connecting := true)
    ensures FlagsOf(Set(b, CONNECTED)) == FlagsOf(b).(connected := true)
    ensures FlagsOf(Set(b, BINDING)) == FlagsOf(b).(binding := true)
    ensures FlagsOf(Set(b, BOUND)) == FlagsOf(b).(bound := true)
  {
  }

  lemma SetsHigh(b: bv8)
    ensures FlagsOf(Set(b, READING)) == FlagsOf(b).(reading := true)
    ensures FlagsOf(Set(b, CLOSING)) == FlagsOf(b).(closing := true)
    ensures FlagsOf(Set(b, CLOSED)) == FlagsOf(b).(closed := true)
    ensures FlagsOf(Set(b, UNREFED)) == FlagsOf(b).(unrefed := true)
  {
  }

  lemma Clears(b: bv8)
    ensures FlagsOf(Clear(b, CONNECTING)) == FlagsOf(b).(connecting := false)
    ensures FlagsOf(Clear(b, CONNECTED)) == FlagsOf(b).(connected := false)
    ensures FlagsOf(Clear(b, BINDING)) == FlagsOf(b).(binding := false)
    ensures FlagsOf(Clear(b, READING)) == FlagsOf(b).(reading := false)
    ensures FlagsOf(Clear(b, CLOSING)) == FlagsOf(b).(closing := false)
    ensures FlagsOf(Clear(b, UNREFED)) == FlagsOf(b).(unrefed := false)
  {
  }

  lemma ConnectedBits(b: bv8)
    ensures Has(b, CONNECTED) == FlagsOf(b).connected
    ensures FlagsOf(Clear(b, CONNECTED)) == FlagsOf(b).(connected := false)
  {
  }

  lemma BoundBits(b: bv8)
    ensures FlagsOf(Clear(Set(b, BOUND), BINDING)) == FlagsOf(b).(bound := true, binding := false)
  {
  }

  lemma ClearsActivity(b: bv8)
    ensures var f := FlagsOf(b);
            FlagsOf(Clear(b, BINDING | BOUND | CONNECTING | CONNECTED | READING))
            == Flags(false, false, false, false, false, f.closing, f.closed, f.unrefed)
  {
  }
}

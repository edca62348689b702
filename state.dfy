/** plugin/state.go: the process-wide Idle/Active flag that brackets every
    scale operation. The Go value is an int32 updated with atomic swaps; the
    atomics are left out and the flag is a plain field. */
module PluginState {

  newtype int32 = x: int | -0x8000_0000 <= x < 0x8000_0000

  const Idle: int32 := 0
  const Active: int32 := 1

  class State {
    /** The stored int32. */
    var value: int32
    /** Every value stored so far, oldest first (a record for specifications). */
    ghost var stores: seq<int32>

    /** Only the two constants are ever stored. */
    ghost predicate Valid()
      reads this
    {
      && (value == Idle || value == Active)
      && forall i :: 0 <= i < |stores| ==> stores[i] == Idle || stores[i] == Active
    }

    /** The Go zero value, which reads as Idle. */
    constructor ()
      ensures Valid() && value == Idle && stores == []
    {
      value := Idle;
      stores := [];
    }

    /** Stores Idle whatever was stored before, so calling it twice is calling it once. */
    method SetIdle()
      requires Valid()
      modifies this
      ensures Valid() && value == Idle && stores == old(stores) + [Idle]
    {
      value := Idle;
      stores := stores + [Idle];
    }

    /** Stores Active whatever was stored before, so calling it twice is calling it once. */
    method SetActive()
      requires Valid()
      modifies this
      ensures Valid() && value == Active && stores == old(stores) + [Active]
    {
      value := Active;
      stores := stores + [Active];
    }

    /** Reads the flag and changes nothing (the method has no modifies clause). */
    method Get() returns (s: int32)
      requires Valid()
      ensures s == value
      ensures s == Idle || s == Active
    {
      s := value;
    }
  }

  /** The sequence of plugin/state_test.go: a fresh flag reads Idle, then Active
      after SetActive, then Idle after SetIdle; repeating a setter changes nothing. */
  method StateSequence() returns (initial: int32, afterActive: int32, afterIdle: int32)
    ensures initial == Idle && afterActive == Active && afterIdle == Idle
  {
    var state := new State();
    initial := state.Get();
    state.SetActive();
    state.SetActive();
    afterActive := state.Get();
    state.SetIdle();
    state.SetIdle();
    afterIdle := state.Get();
  }
}

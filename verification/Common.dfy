/** Datatypes shared by the models. */
module Common {
  datatype Option<+T> = None | Some(value: T)

  datatype LockState = Locked | Unlocked

  /** What one state of a run hands on to the next holds from `i` to `j`. */
  lemma {:induction false} Persists<T>(states: seq<T>, holds: T -> bool, i: nat, j: nat)
    requires i <= j < |states| && holds(states[i])
    requires forall k :: i <= k < j && holds(states[k]) ==> holds(states[k + 1])
    ensures forall k :: i <= k <= j ==> holds(states[k])
    decreases j
  {
    if i < j {
      Persists(states, holds, i, j - 1);
      assert holds(states[j - 1]) ==> holds(states[j - 1 + 1]);
    }
  }
}

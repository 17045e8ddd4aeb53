/** The optional value, and the choice of a fresh number, used throughout the model. */
module Wrappers {
  datatype Option<+T> = None | Some(value: T)

  /** Some number is not a key. */
  lemma FreshKey<V>(m: map<nat, V>) returns (k: nat)
    ensures k !in m
  {
    k := FreshNumber(m.Keys);
  }

  lemma {:induction false} FreshNumber(numbers: set<nat>) returns (k: nat)
    ensures forall x :: x in numbers ==> x < k
    decreases |numbers|
  {
    if numbers == {} {
      k := 0;
    } else {
      var x :| x in numbers;
      var j := FreshNumber(numbers - {x});
      assert forall y :: y in numbers ==> y == x || y in numbers - {x};
      k := if x < j then j else x + 1;
    }
  }
}

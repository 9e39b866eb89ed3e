/** What several parts of the model share. */
module Commons {
  datatype Option<+T> = None | Some(value: T)

  newtype byte = x: int | 0 <= x < 256

  function Below(n: nat): (r: set<nat>)
    ensures forall b: nat :: b in r <==> b < n
  {
    if n == 0 then {} else Below(n - 1) + {n - 1}
  }

  /** A set that grows inside `all` leaves less of it. */
  lemma LessLeft<T>(all: set<T>, a: set<T>, b: set<T>)
    requires a <= b <= all
    ensures |all - b| <= |all - a| && (a != b ==> |all - b| < |all - a|)
  {
    assert all - a == (all - b) + (b - a);
    if a != b {
      var x :| x in b && x !in a;
      assert x in b - a;
    }
  }
}

/** Values shared by every component of the mesh model. */
module Common {

  datatype Option<+T> = None | Some(value: T)

  /** An integer that is at least one. */
  type pos = n: int | 1 <= n witness 1

  /** Instants and durations are whole nanoseconds on one monotonic clock. */
  type Time = int

  datatype HealthStatus = Unknown | Healthy | Unhealthy | Degraded

  function Find<T>(m: map<string, T>, key: string): Option<T> {
    if key in m then Some(m[key]) else None
  }

  function Max(a: int, b: int): int {
    if a < b then b else a
  }

  /** There is always a number that is not taken. */
  lemma {:induction false} FreshNumber(taken: set<nat>) returns (n: nat)
    ensures forall q | q in taken :: q < n
  {
    if taken == {} {
      n := 0;
    } else {
      var q :| q in taken;
      var m := FreshNumber(taken - {q});
      n := Max(q + 1, m);
      assert forall p | p in taken :: p == q || p in taken - {q};
    }
  }
}

/** Types shared by every component of the model. */
module Common {

  datatype Option<+T> = None | Some(value: T)

  datatype Result<+T, +E> = Ok(value: T) | Err(error: E)

  // Instants and durations are counted in microseconds, the resolution of the
  // program's timestamps; an instant is counted from the Unix epoch.
  type Time = int

  const SECOND: int := 1_000_000

  function Min(a: int, b: int): int {
    if a <= b then a else b
  }

  function Max(a: int, b: int): int {
    if a <= b then b else a
  }

  lemma {:induction false} SubsetSize<T>(a: set<T>, b: set<T>)
    requires a <= b
    ensures |a| <= |b|
  {
    assert b == a + (b - a);
  }

  // A set of numbers drawn from low..high has at most that many members.
  lemma {:induction false} BoundedSetSize(s: set<nat>, low: nat, high: nat)
    requires low <= high + 1
    requires forall x :: x in s ==> low <= x <= high
    ensures |s| <= high + 1 - low
    decreases high + 1 - low
  {
    if low == high + 1 {
      assert s == {};
    } else {
      var rest := s - {low};
      BoundedSetSize(rest, low + 1, high);
      assert s <= rest + {low};
      assert |s| <= |rest + {low}| by {
        SubsetSize(s, rest + {low});
      }
    }
  }
}

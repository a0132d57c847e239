/** Types the other modules share. */
module Common {

  datatype Option<T> = None | Some(value: T) {
    function GetOr(default: T): T { if Some? then value else default }
  }

  type byte = x: int | 0 <= x < 256

  /** Seconds since the epoch, as `time.time()` reports them. */
  type Time = t: real | t >= 0.0 witness 0.0

  /** No element occurs twice. */
  predicate Distinct<T(==)>(xs: seq<T>) {
    forall i, j :: 0 <= i < j < |xs| ==> xs[i] != xs[j]
  }

  lemma Assoc<T>(a: seq<T>, b: seq<T>, c: seq<T>)
    ensures (a + b) + c == a + (b + c)
  {
  }
}

/** Types shared by every part of the model. */
module Base {
  datatype Option<+T> = None | Some(value: T)

  datatype Result<+T, +E> = Ok(value: T) | Err(error: E)

  type Bytes = seq<bv8>

  /** Primary keys, and the numbers of the threads that serve requests. */
  type Id = nat

  /** Instants, as whole seconds. */
  type Time = int

  /** One hour: the life of an import preview and the grace period of garbage collection. */
  const HOUR: Time := 3600

  lemma {:induction false} SubsetCount<T>(a: set<T>, b: set<T>)
    requires a <= b
    ensures |a| <= |b|
    decreases a
  {
    if x :| x in a { SubsetCount(a - {x}, b - {x}); }
  }

  ghost function Elements<T>(s: seq<T>): set<T> {
    set x | x in s
  }

  lemma {:induction false} DistinctCount<T>(s: seq<T>)
    ensures |Elements(s)| <= |s|
    ensures (forall i, j :: 0 <= i < j < |s| ==> s[i] != s[j]) ==> |Elements(s)| == |s|
  {
    if s != [] {
      var last, rest := s[|s| - 1], s[..|s| - 1];
      DistinctCount(rest);
      assert s == rest + [last];
      assert Elements(s) == Elements(rest) + {last};
    }
  }
}

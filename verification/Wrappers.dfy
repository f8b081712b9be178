/** Optional values, results that carry one of the proxy's error kinds, and fresh lengths. */
module Wrappers {
  datatype Option<+T> = None | Some(value: T) {
    function GetOr(default: T): T {
      match this
      case Some(v) => v
      case None => default
    }
  }

  /** Why reading the configuration, a rule or a forwarding step failed. */
  datatype Error = AbortApplied | InvalidUri | InvalidBody | InvalidConfig

  datatype Result<+T> = Ok(value: T) | Err(error: Error)

  /** A length that no sequence of a finite set reaches. */
  lemma {:induction false} LongerThanAll<T>(keys: set<seq<T>>) returns (n: nat)
    ensures forall key <- keys :: |key| < n
  {
    n := 0;
    if key :| key in keys {
      var m := LongerThanAll(keys - {key});
      n := if |key| < m then m else |key| + 1;
      assert keys == (keys - {key}) + {key};
    }
  }
}

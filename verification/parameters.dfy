/** Java's Optional<T>; also used where a field is a reference that may still be null. */
module Wrappers {

  datatype Option<+T> = None | Some(value: T) {

    /** The held value, or `default` when there is none. */
    function GetOr(default: T): T {
      match this
      case Some(v) => v
      case None => default
    }
  }
}

/**
 * The parameter maps every builder fills: a Java Map<String, Object> from
 * placeholder names to bound values.
 */
module Parameters {

  /** A bound parameter value (a Java Object); the model never looks inside one. */
  type Value

  /**
   * Putting all entries of one map into another, as a value: every entry of `other` is copied into `m`, an entry
   * of `other` silently replacing one of `m` under the same key.
   */
  function Merge(m: map<string, Value>, other: map<string, Value>): (r: map<string, Value>)
    ensures r.Keys == m.Keys + other.Keys
    ensures forall k :: k in r ==> r[k] == if k in other then other[k] else m[k]
  {
    m + other
  }

  /** Two putAll calls in a row put the same entries as one putAll of their merge. */
  lemma MergeAssociative(m: map<string, Value>, a: map<string, Value>, b: map<string, Value>)
    ensures Merge(Merge(m, a), b) == Merge(m, Merge(a, b))
  {
  }

  /** With no shared key nothing is overwritten: the sizes add up. */
  lemma MergeDisjointSize(m: map<string, Value>, other: map<string, Value>)
    requires m.Keys !! other.Keys
    ensures |Merge(m, other)| == |m| + |other|
  {
  }

  /**
   * A mutable HashMap<String, Object>. It is an object so that two holders of
   * the same map see each other's putAll calls, as they do in the source.
   */
  class ParameterMap {
    var entries: map<string, Value>

    /** A new, empty map. */
    constructor ()
      ensures entries == map[]
    {
      entries := map[];
    }

    /** Puts every entry of `other` into this map. */
    method PutAll(other: map<string, Value>)
      modifies this
      ensures entries == Merge(old(entries), other)
    {
      entries := entries + other;
    }
  }
}

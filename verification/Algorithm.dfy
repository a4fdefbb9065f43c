/** Algorithm::removeIf of algorithm.h, whose predicate may also change the values it keeps. */
module Algorithm {
  import opened Strings

  /** What is left when `p` is asked about every entry: None erases it, Some is its value from then on. */
  function Kept<K, V>(dict: map<K, V>, p: (K, V) -> Option<V>): map<K, V> {
    map k | k in dict && p(k, dict[k]).Some? :: p(k, dict[k]).value
  }

  /** No key occurs twice. */
  predicate Distinct<K(==)>(keys: seq<K>) {
    forall i, j :: 0 <= i < j < |keys| ==> keys[i] != keys[j]
  }

  /** Goes through the entries in some order; every entry is asked about exactly once, with its first value. */
  method RemoveIf<K(==), V>(dict: map<K, V>, p: (K, V) -> Option<V>) returns (kept: map<K, V>, erased: seq<K>)
    ensures kept == Kept(dict, p)
    ensures Distinct(erased) && forall k :: k in erased <==> k in dict && k !in kept
  {
    kept, erased := dict, [];
    var ahead := dict.Keys;
    while ahead != {}
      invariant ahead <= dict.Keys
      invariant kept == map k | k in dict && (k in ahead || p(k, dict[k]).Some?) ::
                          if k in ahead then dict[k] else p(k, dict[k]).value
      invariant Distinct(erased)
      invariant forall k :: k in erased <==> k in dict && k !in ahead && p(k, dict[k]).None?
      decreases ahead
    {
      var k :| k in ahead;
      var verdict := p(k, kept[k]);
      if verdict.None? {
        kept := kept - {k};
        erased := erased + [k];
      } else {
        kept := kept[k := verdict.value];
      }
      ahead := ahead - {k};
    }
  }
}

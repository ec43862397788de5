/** Small shared vocabulary: optional values, white space and the cardinality of finite sets. */
module Common {

  datatype Option<+T> = None | Some(value: T)

  /** White space, as the trimming and splitting of text knows it. */
  predicate IsSpace(c: char) {
    c in "\t\n\r \U{000B}\U{000C}\U{0085}\U{00A0}\U{1680}\U{2028}\U{2029}\U{202F}\U{205F}\U{3000}"
    || '\U{2000}' <= c <= '\U{200A}'
  }

  /** When only x may enter or leave a set, its size changes by exactly that. */
  lemma SizeWhenOneMoves<T>(before: set<T>, after: set<T>, x: T)
    requires before - {x} == after - {x}
    ensures |after| - (if x in after then 1 else 0) == |before| - (if x in before then 1 else 0)
  {
    assert |before - {x}| == |before| - if x in before then 1 else 0;
    assert |after - {x}| == |after| - if x in after then 1 else 0;
  }
}

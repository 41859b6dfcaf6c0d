/** A map whose entries are replaced one after the other, in the order of a list of keys. */
module Rewriting {

  /** Keys of the map, none twice. */
  ghost predicate Listed<K, V>(m: map<K, V>, keys: seq<K>) {
    && (forall i :: 0 <= i < |keys| ==> keys[i] in m)
    && (forall i, j :: 0 <= i < j < |keys| ==> keys[i] != keys[j])
  }

  /** `m'` is `m` with the entries of the first `i` keys replaced. */
  ghost predicate Rewritten<K(!new), V>(m: map<K, V>, keys: seq<K>, values: seq<V>, i: nat, m': map<K, V>) {
    && i <= |keys| == |values| && Listed(m, keys)
    && m'.Keys == m.Keys
    && (forall j :: 0 <= j < i ==> m'[keys[j]] == values[j])
    && (forall j :: i <= j < |keys| ==> m'[keys[j]] == m[keys[j]])
    && (forall n :: n in m && n !in keys ==> m'[n] == m[n])
  }

  lemma RewriteNext<K(!new), V>(m: map<K, V>, keys: seq<K>, values: seq<V>, i: nat, m': map<K, V>)
    requires i < |keys| && Rewritten(m, keys, values, i, m')
    ensures Rewritten(m, keys, values, i + 1, m'[keys[i] := values[i]])
  {
    var m'' := m'[keys[i] := values[i]];
    assert m''.Keys == m.Keys;
    forall j | 0 <= j < |keys| && j != i ensures m''[keys[j]] == m'[keys[j]] {
    }
    forall n | n in m && n !in keys ensures m''[n] == m[n] {
    }
  }

  /** Only the values that have been used matter. */
  lemma RewriteAgrees<K(!new), V>(m: map<K, V>, keys: seq<K>, values: seq<V>, values': seq<V>, i: nat, m': map<K, V>)
    requires Rewritten(m, keys, values, i, m') && |values'| == |values| && forall j :: 0 <= j < i ==> values'[j] == values[j]
    ensures Rewritten(m, keys, values', i, m')
  {
  }
}

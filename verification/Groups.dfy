/** A dictionary of lists in order of insertion, filled one element at a time. */
module Groups {

  type Grouping<K, V> = seq<(K, seq<V>)>

  /** The position of a key, or the number of keys. */
  function Position<K(==), V>(groups: Grouping<K, V>, key: K): (i: nat)
    ensures i <= |groups| && (i < |groups| ==> groups[i].0 == key)
    ensures i == |groups| ==> forall j :: 0 <= j < |groups| ==> groups[j].0 != key
  {
    if groups == [] then 0
    else
      var n := |groups| - 1;
      var i := Position(groups[..n], key);
      if i < n || groups[n].0 == key then i else n + 1
  }

  /** One more element in the list of `key`, or in a new one. */
  function Add<K(==), V>(groups: Grouping<K, V>, key: K, v: V): Grouping<K, V> {
    var i := Position(groups, key);
    if i < |groups| then groups[i := (key, groups[i].1 + [v])] else groups + [(key, [v])]
  }

  /** All the elements of all the lists. */
  function Contents<K, V>(groups: Grouping<K, V>): multiset<V> {
    if groups == [] then multiset{} else Contents(groups[..|groups|-1]) + multiset(groups[|groups|-1].1)
  }

  lemma {:induction false} ListGrows<K, V>(groups: Grouping<K, V>, i: nat, v: V)
    requires i < |groups|
    ensures Contents(groups[i := (groups[i].0, groups[i].1 + [v])]) == Contents(groups) + multiset{v}
  {
    var n, grown := |groups| - 1, groups[i := (groups[i].0, groups[i].1 + [v])];
    if i == n {
      assert grown[..n] == groups[..n];
    } else {
      assert grown[..n] == groups[..n][i := grown[i]];
      ListGrows(groups[..n], i, v);
    }
  }

  lemma AddAdds<K, V>(groups: Grouping<K, V>, key: K, v: V)
    ensures Contents(Add(groups, key, v)) == Contents(groups) + multiset{v}
  {
    var i := Position(groups, key);
    if i < |groups| {
      ListGrows(groups, i, v);
    } else {
      assert (groups + [(key, [v])])[..|groups|] == groups;
    }
  }
}

/** A value that may be missing (a null pointer, a failed lookup, a thrown conversion error), and
    two facts about collections. */
module Wrappers {
  datatype Option<+T> = None | Some(value: T)

  lemma SameMap<V>(a: map<int, V>, b: map<int, V>)
    requires forall k :: k in a <==> k in b
    requires forall k :: k in a ==> a[k] == b[k]
    ensures a == b
  {
    assert forall k :: k in a.Keys <==> k in b.Keys;
    assert forall k :: k in a ==> a[k] == b[k];
  }

  lemma HasMember(s: set<int>)
    requires s != {}
    ensures exists x :: x in s
  {
    assert (forall x :: x !in s) ==> s == {};
  }
}
